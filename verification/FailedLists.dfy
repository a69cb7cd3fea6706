/** What a failed List in the Secret watch costs: exactly when a wake-up is lost. */
module FailedLists {
  import opened Wrappers
  import opened Ordering
  import opened RuntimeApi
  import opened RuntimeResources
  import opened RuntimeStatus
  import opened StatusProperties
  import opened StatusRuns
  import opened EventTraces
  import opened SecretReferences
  import opened ManagedResources
  import opened Reconciler
  import opened Quiescence
  import opened WatchQueue
  import opened Workers

  /** This Secret alone decides whether the runtime's references resolve. */
  ghost predicate Decisive(runtime: Runtime, secrets: set<Key>, secret: Key) {
    && secret.namespace == runtime.key.namespace
    && References(runtime.spec, secret.name)
    && forall name :: name in ReferencedNames(runtime.spec) && name != secret.name ==> Key(runtime.key.namespace, name) in secrets
  }

  function Changed(secrets: set<Key>, secret: Key, appears: bool): set<Key> {
    if appears then secrets + {secret} else secrets - {secret}
  }

  /** A change of one Secret flips the verdict on the references exactly when it is a change and
      the Secret is decisive. */
  lemma VerdictFlipsIff(runtime: Runtime, secrets: set<Key>, secret: Key, appears: bool)
    ensures AllResolved(runtime, secrets) != AllResolved(runtime, Changed(secrets, secret, appears)) <==>
            (secret in secrets) != appears && Decisive(runtime, secrets, secret)
  {
    hide ReferencedNames;
    var after := Changed(secrets, secret, appears);
    assert secrets - {secret} == after - {secret};
    if secret.namespace != runtime.key.namespace || !References(runtime.spec, secret.name) {
      SecretIrrelevant(runtime, secrets, after, secret);
    } else {
      assert secret == Key(runtime.key.namespace, secret.name);
      assert forall name :: name != secret.name ==>
        (Key(runtime.key.namespace, name) in secrets <==> Key(runtime.key.namespace, name) in after);
      assert (secret in secrets) == appears ==> after == secrets;
    }
  }

  /** What a worker concludes about the references if nothing interferes. */
  function Conclusion(worker: Worker, secrets: set<Key>): Outcome {
    match worker
    case Validating(read, checked) =>
      var names, namespace := SecretNames(read.runtime.spec), read.runtime.key.namespace;
      OutcomeOf(CheckSecrets(if checked <= |names| then names[checked..] else [], namespace, secrets, map[]), namespace)
    case Reconciling(_, _) => Validated(ReferencesValid)
    case Observing(_, outcome, _) => outcome
    case Recovering(_, error) => Failed(error)
    case Reporting(_, outcome, _) => outcome
  }

  /** The worker has relied on the Secret as it was: it is done with validating, or has looked past
      it, and no error will send it back. */
  ghost predicate Relied(worker: Worker, secret: Key) {
    match worker
    case Validating(read, checked) =>
      exists i :: 0 <= i < checked && i < |SecretNames(read.runtime.spec)| && SecretNames(read.runtime.spec)[i] == secret.name
    case Reconciling(_, _) => true
    case Observing(_, outcome, _) => outcome.Validated?
    case Recovering(_, _) => false
    case Reporting(_, outcome, _) => outcome.Validated?
  }

  /** A worker that was right so far is misled by the change exactly when the change flips the
      verdict behind its back. */
  lemma MisledIff(worker: Worker, secrets: set<Key>, secret: Key, appears: bool)
    requires Current(worker, secrets)
    ensures var after := Changed(secrets, secret, appears);
            var runtime, outcome := worker.read.runtime, Conclusion(worker, after);
            (outcome.Validated? && !(outcome.validation.ReferencesValid? <==> AllResolved(runtime, after))) <==>
            ((secret in secrets) != appears && Decisive(runtime, secrets, secret) && Relied(worker, secret))
  {
    VerdictFlipsIff(worker.read.runtime, secrets, secret, appears);
    if worker.Validating? {
      MisledWhileValidating(worker, secrets, secret, appears);
    }
    hide AllResolved, Decisive, Changed;
  }

  lemma MisledWhileValidating(worker: Worker, secrets: set<Key>, secret: Key, appears: bool)
    requires worker.Validating? && Current(worker, secrets)
    ensures var after := Changed(secrets, secret, appears);
            var runtime, outcome := worker.read.runtime, Conclusion(worker, after);
            && outcome.Validated?
            && (!(outcome.validation.ReferencesValid? <==> AllResolved(runtime, after)) <==>
                ((secret in secrets) != appears && Decisive(runtime, secrets, secret) && Relied(worker, secret)))
  {
    var after, runtime := Changed(secrets, secret, appears), worker.read.runtime;
    var namespace, names, checked := runtime.key.namespace, SecretNames(runtime.spec), worker.checked;
    RestResolved(names, checked, namespace, after);
    AllResolvedListed(runtime, after);
    DecisiveListed(runtime, secrets, secret);
    NamesDiffer(runtime.spec);
    PassedOver(names, checked, namespace, secrets, secret, appears);
    hide CheckSecrets, SecretNames, Changed, OutcomeOf, AllResolved, Decisive;
  }

  ghost predicate Resolved(names: seq<string>, namespace: string, secrets: set<Key>, from: nat) {
    forall i :: from <= i < |names| ==> Key(namespace, names[i]) in secrets
  }

  ghost predicate ResolvedButFor(names: seq<string>, namespace: string, secrets: set<Key>, secret: Key) {
    && secret.namespace == namespace && secret.name in names
    && forall i :: 0 <= i < |names| && names[i] != secret.name ==> Key(namespace, names[i]) in secrets
  }

  /** The names from `checked` on resolve and some earlier one no longer does: exactly when the
      changed Secret is among the earlier ones and all others resolve. */
  lemma PassedOver(names: seq<string>, checked: nat, namespace: string, secrets: set<Key>, secret: Key, appears: bool)
    requires checked <= |names| && forall i, j :: 0 <= i < j < |names| ==> names[i] != names[j]
    requires forall i :: 0 <= i < checked ==> Key(namespace, names[i]) in secrets
    ensures var after := Changed(secrets, secret, appears);
            (Resolved(names, namespace, after, checked) && !Resolved(names, namespace, after, 0)) <==>
            && (secret in secrets) != appears
            && ResolvedButFor(names, namespace, secrets, secret)
            && exists i :: 0 <= i < checked && i < |names| && names[i] == secret.name
  {
    var after := Changed(secrets, secret, appears);
    if Resolved(names, namespace, after, checked) && !Resolved(names, namespace, after, 0) {
      var i :| 0 <= i < |names| && Key(namespace, names[i]) !in after;
      assert i < checked && Key(namespace, names[i]) in secrets;
      assert secret == Key(namespace, names[i]);
    }
    if i :| 0 <= i < checked && i < |names| && names[i] == secret.name {
      assert secret.namespace == namespace ==> secret == Key(namespace, names[i]) && secret in secrets;
    }
  }

  lemma NamesDiffer(spec: Spec)
    ensures var names := SecretNames(spec);
            forall i, j :: 0 <= i < j < |names| ==> names[i] != names[j]
  {
    var names := SecretNames(spec);
    forall i, j | 0 <= i < j < |names| ensures names[i] != names[j] { LessTotal(names[i], names[j]); }
  }

  lemma DecisiveListed(runtime: Runtime, secrets: set<Key>, secret: Key)
    ensures Decisive(runtime, secrets, secret) <==>
            ResolvedButFor(SecretNames(runtime.spec), runtime.key.namespace, secrets, secret)
  {
    var names := SecretNames(runtime.spec);
    assert forall i :: 0 <= i < |names| ==> names[i] in names;
    hide ReferencedNames, SortedSeq;
  }

  lemma RestResolved(names: seq<string>, checked: nat, namespace: string, secrets: set<Key>)
    requires checked <= |names|
    ensures var outcome := OutcomeOf(CheckSecrets(names[checked..], namespace, secrets, map[]), namespace);
            && outcome.Validated?
            && (outcome.validation.ReferencesValid? <==> Resolved(names, namespace, secrets, checked))
  {
    var rest := names[checked..];
    LookupsStopAtFirst(rest, namespace, secrets, map[]);
    NoLookupFails(rest, namespace, secrets);
    assert forall i :: checked <= i < |names| ==> names[i] == rest[i - checked];
    hide CheckSecrets;
  }

  lemma AllResolvedListed(runtime: Runtime, secrets: set<Key>)
    ensures AllResolved(runtime, secrets) <==> Resolved(SecretNames(runtime.spec), runtime.key.namespace, secrets, 0)
  {
    var names := SecretNames(runtime.spec);
    assert forall i :: 0 <= i < |names| ==> names[i] in names;
    hide ReferencedNames, SortedSeq;
  }

  function SecretAction(secret: Key, appears: bool, listed: bool): Action {
    if appears then AddSecret(secret, listed) else RemoveSecret(secret, listed)
  }

  /** The change of this Secret goes unnoticed: nobody is due to look again, and a reconcile in
      flight has already relied on the Secret as it was. */
  ghost predicate Unnoticed(s: State, secret: Key, appears: bool, key: Key) {
    && key in s.objects && !s.objects[key].runtime.deleting && key !in s.queue
    && (secret in s.secrets) != appears
    && Decisive(s.objects[key].runtime, s.secrets, secret)
    && (key in s.workers ==> Relied(s.workers[key], secret))
  }

  function WorkerVerdict(s: State, key: Key): Verdict
    requires key in s.workers
  {
    VerdictFrom(s.workers[key], ManagedOf(s, key), s.secrets, NO_FAULTS)
  }

  function LastStep(s: State, key: Key, now: Clock): Reconcile
    requires key in s.workers
  {
    var verdict := WorkerVerdict(s, key);
    FinalStep(s, Reporting(s.workers[key].read, verdict.outcome, verdict.observation), now, None)
  }

  /** The write is refused: the object moved on since it was read, and the status would change. */
  predicate Refused(s: State, key: Key, now: Clock) {
    && key in s.workers && key in s.objects
    && s.objects[key].version != s.workers[key].read.version
    && TargetOf(s.workers[key].read.runtime.status, LastStep(s, key, now)) != s.workers[key].read.runtime.status
  }

  /** The reconcile in flight will be followed by another: another owner stops it, it changes an
      object it controls, or its write is refused. */
  predicate Retried(s: State, key: Key, now: Clock) {
    key in s.workers &&
      var verdict := WorkerVerdict(s, key);
      || verdict.outcome.Failed?
      || key in WokenBy(ManagedOf(s, key), verdict.managed, key.namespace)
      || Refused(s, key, now)
  }

  lemma VerdictConcludes(worker: Worker, m: Managed, secrets: set<Key>)
    requires Sound(worker)
    ensures var outcome := VerdictFrom(worker, m, secrets, NO_FAULTS).outcome;
            && (outcome.Validated? ==> outcome == Conclusion(worker, secrets))
            && (Conclusion(worker, secrets).Failed? ==> outcome.Failed?)
  {
    hide CheckSecrets, ReconcileKinds, SecretNames, CoreErrorText, Observe;
  }

  lemma LastStepFails(t: State, key: Key, now: Clock)
    requires key in t.workers && t.workers[key].read.runtime.key == key && key in t.objects
    ensures var runtime, step := t.workers[key].read.runtime, LastStep(t, key, now);
            && step.outcome == WorkerVerdict(t, key).outcome
            && (StepError(runtime.status, step).Some? <==> step.outcome.Failed? || Refused(t, key, now))
  {
    hide WorkerVerdict, TargetOf;
  }

  /** What the undisturbed reconcile leaves behind for its key. */
  lemma CompletedKey(t: State, key: Key, now: Clock)
    requires key in t.workers && key in t.managed && Sound(t.workers[key]) && t.workers[key].read.runtime.key == key && key in t.objects
    ensures var runtime, step := t.workers[key].read.runtime, LastStep(t, key, now);
            var u := Undisturbed(t, key, NO_FAULTS, now);
            && u.secrets == t.secrets && key !in u.workers && key in u.objects
            && (key in u.queue <==> key in t.queue || Retried(t, key, now))
            && u.objects[key].runtime == if Writes(runtime.status, step) then runtime.(status := Step(runtime.status, step)) else t.objects[key].runtime
  {
    hide WorkerVerdict, VerdictFrom, Undisturbed, Step, Writes, StepError, TargetOf, WokenBy, Refused, Arrived, Finished, LastStep, AfterReport, ManagedOf;
    var verdict := WorkerVerdict(t, key);
    VerdictUnfolds(t, key);
    UndisturbedReports(t, key, NO_FAULTS, now);
    LastStepFails(t, key, now);
    ArrivedKey(t, key, now);
    FinishedKey(Arrived(t, key, verdict), key, LastStep(t, key, now));
  }

  lemma ArrivedKey(t: State, key: Key, now: Clock)
    requires key in t.workers && t.workers[key].read.runtime.key == key
    ensures var verdict := WorkerVerdict(t, key);
            var a := Arrived(t, key, verdict);
            && a.secrets == t.secrets && a.objects == t.objects && a.workers[key].read == t.workers[key].read
            && (key in a.queue <==> key in t.queue || key in WokenBy(ManagedOf(t, key), verdict.managed, key.namespace))
            && AfterReport(t, key, verdict, now, None) == Finished(a, key, LastStep(t, key, now))
  {
    hide WokenBy, ManagedOf, WorkerVerdict, Finished;
  }

  lemma FinishedKey(a: State, key: Key, step: Reconcile)
    requires key in a.workers && a.workers[key].read.runtime.key == key && key in a.objects
    ensures var runtime, u := a.workers[key].read.runtime, Finished(a, key, step);
            && u.secrets == a.secrets && key !in u.workers && key in u.objects
            && (key in u.queue <==> key in a.queue || StepError(runtime.status, step).Some?)
            && u.objects[key].runtime == if Writes(runtime.status, step) then runtime.(status := Step(runtime.status, step)) else a.objects[key].runtime
  {
    hide Step, Writes, StepError;
  }

  lemma VerdictUnfolds(t: State, key: Key)
    requires key in t.workers
    ensures WorkerVerdict(t, key) == VerdictFrom(t.workers[key], ManagedOf(t, key), t.secrets, NO_FAULTS)
  {
    hide VerdictFrom;
  }

  lemma CompletionIff(s: State, t: State, secret: Key, appears: bool, key: Key, now: Clock)
    requires Ok(s, key) && key in s.workers
    requires t == s.(secrets := Changed(s.secrets, secret, appears))
    ensures IdleOk(Undisturbed(t, key, NO_FAULTS, now), key) <==> !(Unnoticed(s, secret, appears, key) && !Retried(t, key, now))
  {
    hide WorkerVerdict, VerdictFrom, Undisturbed, Conclusion, Step, StepError, Writes, Decisive, AllResolved, UpToDate, Changed,
      TargetOf, Current, Relied, Retried, Refused;
    if key !in s.queue {
      var worker, runtime, step := s.workers[key], s.workers[key].read.runtime, LastStep(t, key, now);
      CompletedKey(t, key, now);
      MisledIff(worker, s.secrets, secret, appears);
      VerdictUnfolds(t, key);
      VerdictConcludes(worker, ManagedOf(t, key), t.secrets);
      if !Retried(t, key, now) {
        NotRetried(t, key, now);
        FinishIsUpToDate(runtime, step, t.secrets);
        if !Writes(runtime.status, step) { SilentWithoutWriteStep(runtime.status, step); }
      }
    } else {
      UndisturbedKeepsQueue(t, key, now);
    }
  }

  lemma NotRetried(t: State, key: Key, now: Clock)
    requires key in t.workers && t.workers[key].read.runtime.key == key && key in t.objects && !Retried(t, key, now)
    ensures var runtime, step := t.workers[key].read.runtime, LastStep(t, key, now);
            && step.outcome == WorkerVerdict(t, key).outcome && step.outcome.Validated?
            && StepError(runtime.status, step).None?
            && step.key == runtime.key && step.generation == runtime.generation && step.spec == runtime.spec
  {
    hide WorkerVerdict, StepError, Refused, WokenBy;
    LastStepFails(t, key, now);
  }

  lemma UndisturbedKeepsQueue(t: State, key: Key, now: Clock)
    requires key in t.workers && key in t.managed && Sound(t.workers[key]) && key in t.queue
    ensures key in Undisturbed(t, key, NO_FAULTS, now).queue
  {
    hide VerdictFrom, Undisturbed, Step, Writes, StepError, WokenBy;
    UndisturbedReports(t, key, NO_FAULTS, now);
  }

  /** A failed List loses a wake-up exactly when the Secret really appears or disappears, is
      decisive for a live runtime that is not queued, and any reconcile of it in flight has relied
      on the Secret and is not followed by another for its own reasons: once that reconcile is done,
      then and only then, the stored status is left wrong with nobody due to correct it. */
  lemma FailedListLosesWakeUp(s: State, secret: Key, appears: bool, key: Key, now: Clock)
    requires NothingLost(s)
    ensures var t := Next(s, SecretAction(secret, appears, false));
            IdleOk(Undisturbed(t, key, NO_FAULTS, now), key) <==> !(Unnoticed(s, secret, appears, key) && !Retried(t, key, now))
  {
    var t := Next(s, SecretAction(secret, appears, false));
    assert t == s.(secrets := Changed(s.secrets, secret, appears));
    hide Next, AllResolved, Decisive, Holds, Changed, Retried, SecretAction, Sound;
    assert Ok(s, key);
    if key in s.workers {
      hide Undisturbed, Unnoticed, IdleOk;
      CompletionIff(s, t, secret, appears, key, now);
    } else {
      NobodyRetries(t, key, now);
      if key in s.objects {
        VerdictFlipsIff(s.objects[key].runtime, s.secrets, secret, appears);
      }
    }
  }

  lemma NobodyRetries(t: State, key: Key, now: Clock)
    requires key !in t.workers
    ensures !Retried(t, key, now) && Undisturbed(t, key, NO_FAULTS, now) == t
  {
  }

  /******* A run that loses a wake-up *******/

  /** A new runtime, its Secret in place. */
  function Created(key: Key, uid: string, spec: Spec, secret: Key): State {
    State(map[key := Object(Runtime(key, uid, 1, false, spec, EMPTY_STATUS), 0)], {secret}, map[key := NO_RESOURCES], {key}, map[], 1)
  }

  lemma CreatedIsReachable(key: Key, uid: string, spec: Spec, secret: Key)
    ensures Reachable(Created(key, uid, spec, secret))
  {
    var first := State(map[], {secret}, map[], {}, map[], 0);
    StartIsReachable();
    hide Possible, After;
    assert Next(START, AddSecret(secret, true)) == first;
    hide Reachable;
    NextIsReachable(START, AddSecret(secret, true));
    assert Next(first, CreateRuntime(key, uid, spec)) == Created(key, uid, spec, secret);
    NextIsReachable(first, CreateRuntime(key, uid, spec));
  }

  lemma OneName(spec: Spec, name: string)
    requires ReferencedNames(spec) == {name}
    ensures SecretNames(spec) == [name]
  {
    SortedSeqUnique([name], {name});
  }

  /** The cluster with one new runtime whose references resolve. */
  lemma NewCluster(cluster: Cluster, key: Key, name: string)
    requires cluster.runtimes.Keys == {key} && cluster.secrets == {Key(key.namespace, name)} && cluster.managed == map[key := NO_RESOURCES]
    requires var runtime := cluster.runtimes[key];
             && runtime.key == key && !runtime.deleting && runtime.status == EMPTY_STATUS
             && RuntimeImage(runtime.spec.image) != "" && ReferencedNames(runtime.spec) == {name}
    ensures WellFormed(cluster) && !Obstructed(cluster, key) && Live(cluster, key)
    ensures CheckReferences(cluster.runtimes[key].spec, key.namespace, cluster.secrets, map[]) == AllFound
  {
    hide RuntimeImage, ReferencedNames, CheckSecrets;
    ValidationReportsFirst(cluster.runtimes[key].spec, key.namespace, cluster.secrets, map[], name);
    assert forall kind :: !Conflict(kind, NO_RESOURCES, cluster.runtimes[key]);
  }

  /** A runtime that has been reconciled once and is queued again, because its objects appeared. */
  ghost predicate Deployed(s: State, key: Key, spec: Spec, secret: Key) {
    && key in s.objects && key in s.managed && s.workers == map[] && s.secrets == {secret} && key in s.queue
    && s.objects[key].runtime.key == key && !s.objects[key].runtime.deleting && s.objects[key].runtime.spec == spec
    && SettledAt(ClusterOf(s), key) && !Obstructed(ClusterOf(s), key)
  }

  lemma FirstReconcile(key: Key, uid: string, spec: Spec, name: string, now: Clock) returns (s: State)
    requires ReferencedNames(spec) == {name} && RuntimeImage(spec.image) != ""
    ensures Reachable(s) && Deployed(s, key, spec, Key(key.namespace, name))
  {
    hide ReferencedNames, RuntimeImage, Undisturbed, Reachable, WellFormed, Obstructed, SettledAt, ReconcileEffect, WokenBy, Wakes, CheckReferences;
    var secret := Key(key.namespace, name);
    var created := Created(key, uid, spec, secret);
    var cluster := ClusterOf(created);
    CreatedIsReachable(key, uid, spec, secret);
    NextIsReachable(created, Dequeue(key, false));
    UndisturbedIsReachable(Next(created, Dequeue(key, false)), key, NO_FAULTS, now);
    s := Undisturbed(Next(created, Dequeue(key, false)), key, NO_FAULTS, now);
    NewCluster(cluster, key, name);
    WorkerRefinesReconcile(created, key, NO_FAULTS, now);
    FirstPassWakesItself(cluster, key);
    PassWakes(cluster, key, now);
    FaultFreeErrorIff(cluster, key, now);
    ReconcileIsFixpoint(cluster, key, now, now);
    OwnObstructionStays(cluster, key, now);
    PassDiffers(cluster, key, now);
    EffectRecorded(cluster, key, now);
    ClusterHolds(s, key);
  }

  lemma EffectRecorded(cluster: Cluster, key: Key, now: Clock)
    requires WellFormed(cluster) && Live(cluster, key)
    ensures var after := ReconcileEffect(cluster, key, NO_FAULTS, now).cluster;
            && key in after.runtimes && key in after.managed && after.secrets == cluster.secrets
            && after.runtimes[key] == cluster.runtimes[key].(status := after.runtimes[key].status)
  {
    EffectFrame(cluster, key, now);
    hide ReconcileEffect, VerdictOf, Step;
  }

  /** Another reconcile has looked its Secret up. */
  lemma SecondLookup(s: State, key: Key, spec: Spec, name: string) returns (t: State)
    requires Reachable(s) && Deployed(s, key, spec, Key(key.namespace, name)) && ReferencedNames(spec) == {name}
    ensures Reachable(t)
    ensures t == s.(queue := s.queue - {key}, workers := map[key := Validating(s.objects[key], 1)])
  {
    hide Reachable, ReferencedNames, SettledAt, Obstructed, WokenBy;
    OneName(spec, name);
    hide SecretNames;
    var read := s.objects[key];
    var taken := Next(s, Dequeue(key, false));
    assert taken == s.(queue := s.queue - {key}, workers := map[key := Validating(read, 0)]);
    NextIsReachable(s, Dequeue(key, false));
    t := Next(taken, Proceed(key, None));
    NextIsReachable(taken, Proceed(key, None));
    NothingChanges(s.managed[key], key.namespace);
    assert Advance(Validating(read, 0), s.managed[key], s.secrets, None) == Progress(Validating(read, 1), s.managed[key]);
    assert s.managed[key := s.managed[key]] == s.managed;
    assert t.queue == s.queue - {key};
  }

  /** Past its only name, a worker no longer asks for Secrets. */
  lemma PastItsName(read: Object, m: Managed, name: string)
    requires SecretNames(read.runtime.spec) == [name]
    ensures VerdictFrom(Validating(read, 1), m, {}, NO_FAULTS) ==
            VerdictOf(read.runtime, m, {Key(read.runtime.key.namespace, name)}, NO_FAULTS)
  {
    hide SecretNames, CoreFrom, VerdictOf, Observe;
    var secrets := {Key(read.runtime.key.namespace, name)};
    NewWorkerVerdict(read, m, secrets, NO_FAULTS);
    LookupKeepsVerdict(read, 0, m, secrets, NO_FAULTS);
    assert [name][1..] == [];
  }

  lemma UnobstructedSucceeds(runtime: Runtime, m: Managed, secrets: set<Key>)
    requires CheckReferences(runtime.spec, runtime.key.namespace, secrets, map[]) == AllFound
    requires forall kind :: !Conflict(kind, m, runtime)
    ensures VerdictOf(runtime, m, secrets, NO_FAULTS).outcome.Validated?
  {
    hide VerdictOf, CheckReferences, Conflict;
    VerdictFailsIff(runtime, m, secrets, NO_FAULTS);
  }

  lemma DeployedVerdict(s: State, key: Key, spec: Spec, name: string)
    requires Deployed(s, key, spec, Key(key.namespace, name)) && ReferencedNames(spec) == {name}
    ensures var verdict := VerdictOf(s.objects[key].runtime, s.managed[key], s.secrets, NO_FAULTS);
            verdict.managed == s.managed[key] && verdict.outcome.Validated?
  {
    hide ReferencedNames, CheckReferences, Conflict, VerdictOf, Step;
    var runtime, m := s.objects[key].runtime, s.managed[key];
    assert ClusterOf(s).runtimes[key] == runtime && ManagedAt(ClusterOf(s), key) == m && Live(ClusterOf(s), key);
    ValidationReportsFirst(spec, key.namespace, s.secrets, map[], name);
    UnobstructedSucceeds(runtime, m, s.secrets);
  }

  /** What the second reconcile is heading for once it has looked its only Secret up. */
  lemma SecondIsNotRetried(s: State, key: Key, spec: Spec, name: string, t: State, later: Clock)
    requires Deployed(s, key, spec, Key(key.namespace, name)) && ReferencedNames(spec) == {name}
    requires t == s.(secrets := {}, queue := s.queue - {key}, workers := map[key := Validating(s.objects[key], 1)])
    ensures !Retried(t, key, later)
  {
    hide ReferencedNames, SecretNames, VerdictOf, VerdictFrom, SettledAt, Obstructed, WokenBy, TargetOf;
    OneName(spec, name);
    DeployedVerdict(s, key, spec, name);
    PastItsName(s.objects[key], s.managed[key], name);
    NothingChanges(s.managed[key], key.namespace);
  }

  /** Such runs exist, for every runtime with one Secret: deployed and reconciled again, it looks
      the Secret up just before it disappears, its List fails, and the runtime ends up idle with a
      status that is wrong. */
  lemma InFlightWakeUpLost(key: Key, uid: string, spec: Spec, name: string, now: Clock, later: Clock) returns (s: State)
    requires ReferencedNames(spec) == {name} && RuntimeImage(spec.image) != ""
    ensures Reachable(s) && key in s.workers
    ensures !IdleOk(Undisturbed(Next(s, RemoveSecret(Key(key.namespace, name), false)), key, NO_FAULTS, later), key)
  {
    hide RuntimeImage, Reachable, Undisturbed, Retried, NothingLost, SettledAt, Obstructed, IdleOk;
    var secret := Key(key.namespace, name);
    var deployed := FirstReconcile(key, uid, spec, name, now);
    s := SecondLookup(deployed, key, spec, name);
    OneName(spec, name);
    ReachableLosesNothing(s);
    var t := Next(s, RemoveSecret(secret, false));
    assert {secret} - {secret} == {};
    assert t == deployed.(secrets := {}, queue := deployed.queue - {key}, workers := map[key := Validating(deployed.objects[key], 1)]);
    SecondIsNotRetried(deployed, key, spec, name, t, later);
    assert Relied(s.workers[key], secret) by { assert SecretNames(spec)[0] == name; }
    assert Decisive(s.objects[key].runtime, s.secrets, secret);
    FailedListLosesWakeUp(s, secret, false, key, later);
  }
}
