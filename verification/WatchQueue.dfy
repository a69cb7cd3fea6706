/** The work queue, its watches and any number of workers, interleaved with users editing runtimes
    and Secrets and with everybody who changes the managed objects: no wake-up is lost. */
module WatchQueue {
  import opened Wrappers
  import opened RuntimeApi
  import opened RuntimeResources
  import opened RuntimeStatus
  import opened StatusProperties
  import opened StatusRuns
  import opened EventTraces
  import opened SecretReferences
  import opened ManagedResources
  import opened Reconciler

  datatype Object = Object(runtime: Runtime, version: nat)

  /** A reconcile in flight, holding the runtime it read, between two of its API calls: looking up
      its Secrets one by one, going through the managed kinds, reading the Deployment and then the
      Service, reading them again after a failure, or about to write the status. */
  datatype Worker =
    | Validating(read: Object, checked: nat)
    | Reconciling(read: Object, done: nat)
    | Observing(read: Object, outcome: Outcome, deployment: Option<Option<Deployment>>)
    | Recovering(read: Object, error: string)
    | Reporting(read: Object, outcome: Outcome, observation: Observation)

  /** A key may be queued while a worker holds it; it is then handed out only after that worker is
      done. */
  datatype State = State(
    objects: map<Key, Object>,
    secrets: set<Key>,
    managed: map<Key, Managed>,
    queue: set<Key>,
    workers: map<Key, Worker>,
    nextVersion: nat)

  /** ChangeManaged is what anybody but the operator does to the managed objects of that name.
      Proceed is the next API call of a worker, failing with `error` or not. */
  datatype Action =
    | CreateRuntime(key: Key, uid: string, spec: Spec)
    | EditSpec(key: Key, spec: Spec)
    | EditMetadata(key: Key)
    | MarkDeleting(key: Key)
    | RemoveRuntime(key: Key)
    | AddSecret(secret: Key, listed: bool)
    | RemoveSecret(secret: Key, listed: bool)
    | ChangeManaged(key: Key, after: Managed)
    | Dequeue(key: Key, getFails: bool)
    | Proceed(key: Key, error: Option<string>)
    | Finish(key: Key, now: Clock, writeError: Option<string>)

  /******* Transitions *******/

  function Runtimes(s: State): map<Key, Runtime> {
    map k | k in s.objects :: s.objects[k].runtime
  }

  function PutRuntime(s: State, runtime: Runtime): State {
    s.(objects := s.objects[runtime.key := Object(runtime, s.nextVersion)], nextVersion := s.nextVersion + 1)
  }

  function Enqueue(s: State, keys: set<Key>): State {
    s.(queue := s.queue + keys)
  }

  function ManagedOf(s: State, key: Key): Managed {
    if key in s.managed then s.managed[key] else NO_RESOURCES
  }

  /** The watches on owned objects queue the runtimes that control what changes. */
  function PutManaged(s: State, key: Key, after: Managed): State {
    Enqueue(s.(managed := s.managed[key := after]), WokenBy(ManagedOf(s, key), after, key.namespace))
  }

  /** The Secret watch lists the runtimes; a failed List drops the wake-up. */
  function SecretChanged(s: State, secret: Key, listed: bool): State {
    if listed then Enqueue(s, SecretRequests(Runtimes(s), secret)) else s
  }

  predicate Enabled(s: State, action: Action) {
    match action
    case CreateRuntime(key, _, _) => key !in s.objects
    case EditSpec(key, _) => key in s.objects
    case EditMetadata(key) => key in s.objects
    case MarkDeleting(key) => key in s.objects
    case RemoveRuntime(key) => key in s.objects
    case AddSecret(_, _) => true
    case RemoveSecret(_, _) => true
    case ChangeManaged(_, _) => true
    case Dequeue(key, _) => key in s.queue && key !in s.workers
    case Proceed(key, _) => key in s.workers && !s.workers[key].Reporting?
    case Finish(key, _, _) => key in s.workers && s.workers[key].Reporting?
  }

  datatype Progress = Progress(worker: Worker, managed: Managed)

  /** The next lookup of validateSecretReferences. */
  function LookedUp(read: Object, checked: nat, secrets: set<Key>, error: Option<string>): Worker {
    var names, namespace := SecretNames(read.runtime.spec), read.runtime.key.namespace;
    if checked >= |names| then Reconciling(read, 0)
    else if error.Some? then Recovering(read, OutcomeOf(LookupFailed(names[checked], error.value), namespace).error)
    else if Key(namespace, names[checked]) in secrets then Validating(read, checked + 1)
    else Observing(read, OutcomeOf(NotFound(names[checked]), namespace), None)
  }

  /** The next step of reconcileCoreResources. */
  function SteppedOn(read: Object, done: nat, m: Managed, error: Option<string>): Progress {
    if done >= |ORDER| then Progress(Observing(read, Validated(ReferencesValid), None), m)
    else
      var result := StepResult(ORDER[done], m, read.runtime, if error.Some? then map[ORDER[done] := error.value] else map[]);
      Progress(if result.error.Some? then Recovering(read, CoreErrorText(result.error.value)) else Reconciling(read, done + 1),
               result.managed)
  }

  function Advance(worker: Worker, m: Managed, secrets: set<Key>, error: Option<string>): Progress
    requires !worker.Reporting?
  {
    match worker
    case Validating(read, checked) => Progress(LookedUp(read, checked, secrets, error), m)
    case Reconciling(read, done) => SteppedOn(read, done, m, error)
    case Observing(read, outcome, deployment) =>
      Progress(if error.Some? then Recovering(read, error.value)
               else if deployment.None? then Observing(read, outcome, Some(Body(m.deployment)))
               else Reporting(read, outcome, Observation(deployment.value, Body(m.service))), m)
    case Recovering(read, cause) =>
      Progress(if error.Some? then Reporting(read, Failed(Join(cause, error.value)), NOTHING_OBSERVED)
               else Reporting(read, Failed(cause), Observe(m)), m)
  }

  /** The status step of a finishing worker; the write is refused when the object moved on or went
      away since it was read. */
  function FinalStep(s: State, worker: Worker, now: Clock, writeError: Option<string>): Reconcile
    requires worker.Reporting?
  {
    var runtime := worker.read.runtime;
    var stale := runtime.key !in s.objects || s.objects[runtime.key].version != worker.read.version;
    Reconcile(runtime.key, runtime.generation, runtime.spec, worker.observation, worker.outcome, now,
              if stale then Some("the object has been modified") else writeError)
  }

  /** A successful write stores the status, which does not change the generation and so wakes
      nobody; an error requeues the key. */
  function Finished(s: State, key: Key, step: Reconcile): State
    requires key in s.workers
  {
    var runtime := s.workers[key].read.runtime;
    var done := s.(workers := s.workers - {key});
    var written := if Writes(runtime.status, step) then PutRuntime(done, runtime.(status := Step(runtime.status, step))) else done;
    if StepError(runtime.status, step).Some? then Enqueue(written, {key}) else written
  }

  function Next(s: State, action: Action): State
    requires Enabled(s, action)
  {
    match action
    case CreateRuntime(key, uid, spec) =>
      var recorded := s.(managed := s.managed[key := ManagedOf(s, key)]);
      Enqueue(PutRuntime(recorded, Runtime(key, uid, 1, false, spec, EMPTY_STATUS)), {key})
    case EditSpec(key, spec) =>
      var runtime := s.objects[key].runtime;
      Enqueue(PutRuntime(s, runtime.(key := key, spec := spec, generation := runtime.generation + 1)), {key})
    case EditMetadata(key) =>
      PutRuntime(s, s.objects[key].runtime.(key := key))
    case MarkDeleting(key) =>
      var runtime := s.objects[key].runtime;
      Enqueue(PutRuntime(s, runtime.(key := key, deleting := true, generation := runtime.generation + 1)), {key})
    case RemoveRuntime(key) =>
      Enqueue(s.(objects := s.objects - {key}), {key})
    case AddSecret(secret, listed) =>
      SecretChanged(s.(secrets := s.secrets + {secret}), secret, listed)
    case RemoveSecret(secret, listed) =>
      SecretChanged(s.(secrets := s.secrets - {secret}), secret, listed)
    case ChangeManaged(key, after) =>
      PutManaged(s, key, after)
    case Dequeue(key, getFails) =>
      if getFails then s
      else if key !in s.objects || s.objects[key].runtime.deleting then s.(queue := s.queue - {key})
      else s.(queue := s.queue - {key}, workers := s.workers[key := Validating(s.objects[key], 0)])
    case Proceed(key, error) =>
      var progress := Advance(s.workers[key], ManagedOf(s, key), s.secrets, error);
      PutManaged(s, key, progress.managed).(workers := s.workers[key := progress.worker])
    case Finish(key, now, writeError) =>
      Finished(s, key, FinalStep(s, s.workers[key], now, writeError))
  }

  /******* The invariant *******/

  ghost predicate AllResolved(runtime: Runtime, secrets: set<Key>) {
    forall name :: name in ReferencedNames(runtime.spec) ==> Key(runtime.key.namespace, name) in secrets
  }

  /** The stored status speaks about the current spec and the current Secrets. */
  ghost predicate UpToDate(runtime: Runtime, secrets: set<Key>) {
    && runtime.status.observedGeneration == runtime.generation
    && (Holds(runtime.status, ConfigurationValid) <==> AllResolved(runtime, secrets))
  }

  /** What a worker has concluded so far still agrees with the Secrets. */
  ghost predicate Current(worker: Worker, secrets: set<Key>) {
    var runtime := worker.read.runtime;
    match worker
    case Validating(_, checked) =>
      var names := SecretNames(runtime.spec);
      checked <= |names| && forall i :: 0 <= i < checked ==> Key(runtime.key.namespace, names[i]) in secrets
    case Reconciling(_, _) => AllResolved(runtime, secrets)
    case Observing(_, outcome, _) => JudgesRightly(outcome, runtime, secrets)
    case Recovering(_, _) => true
    case Reporting(_, outcome, _) => JudgesRightly(outcome, runtime, secrets)
  }

  ghost predicate JudgesRightly(outcome: Outcome, runtime: Runtime, secrets: set<Key>) {
    outcome.Validated? ==> (outcome.validation.ReferencesValid? <==> AllResolved(runtime, secrets))
  }

  /** A worker about to observe has no failure yet. */
  predicate Sound(worker: Worker) {
    worker.Observing? ==> worker.outcome.Validated?
  }

  /** A live runtime that nobody is working on and that is not queued is up to date. */
  ghost predicate IdleOk(s: State, key: Key) {
    key in s.objects && !s.objects[key].runtime.deleting && key !in s.queue && key !in s.workers ==>
      UpToDate(s.objects[key].runtime, s.secrets)
  }

  /** A worker whose key is not queued again works on what is stored. */
  ghost predicate WorkerOk(s: State, key: Key) {
    key in s.workers ==>
      && s.workers[key].read.runtime.key == key
      && s.workers[key].read.version < s.nextVersion
      && key in s.managed && Sound(s.workers[key])
      && (key in s.objects && s.objects[key].version == s.workers[key].read.version ==>
          s.objects[key].runtime == s.workers[key].read.runtime)
      && (key !in s.queue ==>
          && key in s.objects
          && s.objects[key].runtime == s.workers[key].read.runtime
          && Current(s.workers[key], s.secrets))
  }

  ghost predicate ObjectOk(s: State, key: Key) {
    key in s.objects ==> s.objects[key].runtime.key == key && s.objects[key].version < s.nextVersion && key in s.managed
  }

  ghost predicate Ok(s: State, key: Key) {
    ObjectOk(s, key) && IdleOk(s, key) && WorkerOk(s, key)
  }

  ghost predicate NothingLost(s: State) {
    forall key: Key :: Ok(s, key)
  }

  /******* Preservation *******/

  /** A key that an action does not concern keeps its part of the invariant. */
  lemma Untouched(s: State, t: State, key: Key)
    requires Ok(s, key)
    requires s.nextVersion <= t.nextVersion && s.secrets == t.secrets
    requires key in s.objects <==> key in t.objects
    requires key in s.objects ==> s.objects[key] == t.objects[key]
    requires key in s.workers <==> key in t.workers
    requires key in s.workers ==> s.workers[key] == t.workers[key]
    requires key in s.queue ==> key in t.queue
    requires key in s.managed ==> key in t.managed
    ensures Ok(t, key)
  {
    hide UpToDate, Current;
  }

  /** Storing a new version of a runtime and queueing it. */
  lemma StoredAndQueued(s: State, runtime: Runtime)
    requires NothingLost(s) && runtime.key in s.managed
    ensures NothingLost(Enqueue(PutRuntime(s, runtime), {runtime.key}))
  {
    var t := Enqueue(PutRuntime(s, runtime), {runtime.key});
    hide UpToDate, Current;
    forall key: Key ensures Ok(t, key) {
      assert Ok(s, key);
      if key != runtime.key { Untouched(s, t, key); }
    }
  }

  lemma MetadataEdited(s: State, key: Key)
    requires NothingLost(s) && key in s.objects
    ensures NothingLost(PutRuntime(s, s.objects[key].runtime))
  {
    var t := PutRuntime(s, s.objects[key].runtime);
    hide UpToDate, Current;
    assert Ok(s, key);
    forall other: Key ensures Ok(t, other) {
      assert Ok(s, other);
      if other != key { Untouched(s, t, other); }
    }
  }

  lemma RuntimeRemoved(s: State, key: Key)
    requires NothingLost(s)
    ensures NothingLost(Enqueue(s.(objects := s.objects - {key}), {key}))
  {
    var t := Enqueue(s.(objects := s.objects - {key}), {key});
    hide UpToDate, Current;
    forall other: Key ensures Ok(t, other) {
      assert Ok(s, other);
      if other != key { Untouched(s, t, other); }
    }
  }

  /** A runtime that does not reference a Secret does not notice its change. */
  lemma SecretIrrelevant(runtime: Runtime, before: set<Key>, after: set<Key>, secret: Key)
    requires before - {secret} == after - {secret}
    requires runtime.key.namespace != secret.namespace || !References(runtime.spec, secret.name)
    ensures AllResolved(runtime, before) <==> AllResolved(runtime, after)
    ensures forall name :: name in ReferencedNames(runtime.spec) ==>
              (Key(runtime.key.namespace, name) in before <==> Key(runtime.key.namespace, name) in after)
  {
    hide ReferencedNames;
    forall name | name in ReferencedNames(runtime.spec)
      ensures Key(runtime.key.namespace, name) in before <==> Key(runtime.key.namespace, name) in after
    {
      var read := Key(runtime.key.namespace, name);
      assert read != secret;
      assert read in before - {secret} <==> read in after - {secret};
    }
  }

  lemma CurrentStays(worker: Worker, before: set<Key>, after: set<Key>, secret: Key)
    requires before - {secret} == after - {secret} && Current(worker, before)
    requires worker.read.runtime.key.namespace != secret.namespace || !References(worker.read.runtime.spec, secret.name)
    ensures Current(worker, after)
  {
    SecretIrrelevant(worker.read.runtime, before, after, secret);
    hide ReferencedNames, AllResolved;
    var names := SecretNames(worker.read.runtime.spec);
    assert forall i :: 0 <= i < |names| ==> names[i] in names;
  }

  /** A Secret change wakes every runtime it can concern, so nothing is lost. */
  lemma SecretChangeKeeps(s: State, secrets: set<Key>, secret: Key)
    requires NothingLost(s) && s.secrets - {secret} == secrets - {secret}
    ensures NothingLost(SecretChanged(s.(secrets := secrets), secret, true))
  {
    var t := SecretChanged(s.(secrets := secrets), secret, true);
    hide ReferencedNames, AllResolved, Current, Holds;
    forall key: Key ensures Ok(t, key) {
      assert Ok(s, key);
      if key in s.objects && key !in t.queue {
        var runtime := s.objects[key].runtime;
        assert Runtimes(s.(secrets := secrets))[key] == runtime;
        SecretIrrelevant(runtime, s.secrets, secrets, secret);
        if key in s.workers {
          CurrentStays(s.workers[key], s.secrets, secrets, secret);
        }
      }
    }
  }

  lemma Dequeued(s: State, key: Key)
    requires NothingLost(s) && key in s.queue && key !in s.workers
    ensures NothingLost(Next(s, Dequeue(key, false)))
  {
    var t := Next(s, Dequeue(key, false));
    hide UpToDate, AllResolved, SecretNames;
    assert Ok(s, key);
    forall other: Key ensures Ok(t, other) {
      assert Ok(s, other);
      if other != key { Untouched(s, t, other); }
    }
  }

  /** A record for a runtime yet to come. */
  lemma Recorded(s: State, key: Key)
    requires NothingLost(s)
    ensures NothingLost(s.(managed := s.managed[key := ManagedOf(s, key)]))
  {
    var t := s.(managed := s.managed[key := ManagedOf(s, key)]);
    hide UpToDate, Current, ManagedOf;
    forall other: Key ensures Ok(t, other) {
      assert Ok(s, other);
      Untouched(s, t, other);
    }
  }

  lemma ManagedPut(s: State, key: Key, after: Managed)
    requires NothingLost(s)
    ensures NothingLost(PutManaged(s, key, after))
  {
    var t := PutManaged(s, key, after);
    hide UpToDate, Current, ManagedOf, WokenBy;
    forall other: Key ensures Ok(t, other) {
      assert Ok(s, other);
      Untouched(s, t, other);
    }
  }

  lemma AdvanceFrame(worker: Worker, m: Managed, secrets: set<Key>, error: Option<string>)
    requires !worker.Reporting?
    ensures Advance(worker, m, secrets, error).worker.read == worker.read
    ensures Sound(worker) ==> Sound(Advance(worker, m, secrets, error).worker)
    ensures !worker.Reconciling? ==> Advance(worker, m, secrets, error).managed == m
  {
    hide StepResult, CoreErrorText, SecretNames, Observe;
  }

  /** The calls keep pace: what the worker concludes agrees with the Secrets it saw. */
  lemma AdvanceStaysCurrent(worker: Worker, m: Managed, secrets: set<Key>, error: Option<string>)
    requires !worker.Reporting? && Current(worker, secrets)
    ensures Current(Advance(worker, m, secrets, error).worker, secrets)
  {
    hide StepResult, CoreErrorText, Observe, ReferencedNames;
    var runtime := worker.read.runtime;
    var names := SecretNames(runtime.spec);
    if worker.Validating? {
      assert forall i :: 0 <= i < |names| ==> names[i] in names;
      if worker.checked == |names| {
        forall name | name in ReferencedNames(runtime.spec) ensures Key(runtime.key.namespace, name) in secrets {
          var i :| 0 <= i < |names| && names[i] == name;
        }
      }
      assert worker.checked < |names| ==> names[worker.checked] in ReferencedNames(runtime.spec);
    }
  }

  lemma Proceeded(s: State, key: Key, error: Option<string>)
    requires NothingLost(s) && key in s.workers && !s.workers[key].Reporting?
    ensures NothingLost(Next(s, Proceed(key, error)))
  {
    hide UpToDate, Current, Advance, ManagedOf, WokenBy, Sound;
    var t := Next(s, Proceed(key, error));
    var progress := Advance(s.workers[key], ManagedOf(s, key), s.secrets, error);
    AdvanceFrame(s.workers[key], ManagedOf(s, key), s.secrets, error);
    var put := PutManaged(s, key, progress.managed);
    ManagedPut(s, key, progress.managed);
    forall other: Key ensures Ok(t, other) {
      assert Ok(put, other);
      if other != key {
        Untouched(put, t, other);
      } else if key !in t.queue {
        assert Ok(s, key);
        AdvanceStaysCurrent(s.workers[key], ManagedOf(s, key), s.secrets, error);
      }
    }
  }

  /** What a successful finish reports. */
  lemma FinishReports(runtime: Runtime, step: Reconcile)
    requires step.key == runtime.key && step.generation == runtime.generation && step.spec == runtime.spec
    requires step.outcome.Validated? && StepError(runtime.status, step).None?
    ensures var status := Step(runtime.status, step);
            && status.observedGeneration == runtime.generation
            && (Holds(status, ConfigurationValid) <==> step.outcome.validation.ReferencesValid?)
  {
    var plain, target := RuntimeAt(runtime.status, step), TargetOf(runtime.status, step);
    ConfigurationValidIff(plain, step.observation, step.outcome, step.now);
    TargetCarriesGeneration(plain, step.observation, step.outcome, step.now, ConfigurationValid);
    PersistedFind(target, ConfigurationValid);
    hide Target, StatusOf, CarriesGeneration;
    assert ValidationOf(step.outcome) == step.outcome.validation;
  }

  /** It leaves the runtime up to date exactly when it judged the references rightly. */
  lemma FinishIsUpToDate(runtime: Runtime, step: Reconcile, secrets: set<Key>)
    requires step.key == runtime.key && step.generation == runtime.generation && step.spec == runtime.spec
    requires step.outcome.Validated? && StepError(runtime.status, step).None?
    ensures UpToDate(runtime.(status := Step(runtime.status, step)), secrets) <==>
            (step.outcome.validation.ReferencesValid? <==> AllResolved(runtime, secrets))
  {
    FinishReports(runtime, step);
    hide Step, Holds, StepError, ReferencedNames;
    assert AllResolved(runtime.(status := Step(runtime.status, step)), secrets) == AllResolved(runtime, secrets);
  }

  /** Finishing leaves every other key alone. */
  lemma FinishOthers(s: State, key: Key, step: Reconcile, other: Key)
    requires key in s.workers && s.workers[key].read.runtime.key == key
    requires Ok(s, other) && other != key
    ensures Ok(Finished(s, key, step), other)
  {
    hide Ok, Step, Writes, StepError;
    Untouched(s, Finished(s, key, step), other);
  }

  /** The finished key is queued again, or up to date. */
  lemma FinishSelf(s: State, key: Key, now: Clock, writeError: Option<string>)
    requires Ok(s, key) && key in s.workers && s.workers[key].Reporting?
    ensures Ok(Finished(s, key, FinalStep(s, s.workers[key], now, writeError)), key)
  {
    hide UpToDate, AllResolved, Step, Writes, StepError, Sound;
    var step := FinalStep(s, s.workers[key], now, writeError);
    var runtime := s.workers[key].read.runtime;
    WritesNeedFresh(runtime.status, step);
    if StepError(runtime.status, step).None? && key !in s.queue {
      FailureIsAnError(runtime.status, step);
      FinishIsUpToDate(runtime, step, s.secrets);
      if !Writes(runtime.status, step) { SilentWithoutWriteStep(runtime.status, step); }
    }
  }

  lemma FinishKeeps(s: State, key: Key, now: Clock, writeError: Option<string>)
    requires NothingLost(s) && key in s.workers && s.workers[key].Reporting?
    ensures NothingLost(Next(s, Finish(key, now, writeError)))
  {
    hide Finished, FinalStep, IdleOk, Current, Sound;
    var step := FinalStep(s, s.workers[key], now, writeError);
    assert Ok(s, key);
    FinishSelf(s, key, now, writeError);
    forall other: Key ensures Ok(Finished(s, key, step), other) {
      assert Ok(s, other);
      if other != key { FinishOthers(s, key, step, other); }
    }
  }

  lemma WritesNeedFresh(stored: Status, step: Reconcile)
    ensures Writes(stored, step) ==> step.writeError.None?
  {
  }

  lemma FailureIsAnError(stored: Status, step: Reconcile)
    requires StepError(stored, step).None?
    ensures step.outcome.Validated?
  {
  }

  /** A finishing worker never undoes an edit: whatever happened since it read its runtime, it
      changes nothing of the stored objects but the status of its own. */
  lemma FinishWritesStatusOnly(s: State, key: Key, now: Clock, writeError: Option<string>, other: Key)
    requires NothingLost(s) && key in s.workers && s.workers[key].Reporting?
    ensures var t := Finished(s, key, FinalStep(s, s.workers[key], now, writeError));
            && (other in t.objects <==> other in s.objects)
            && (other in s.objects ==> t.objects[other].runtime == s.objects[other].runtime.(status := t.objects[other].runtime.status))
            && (other in s.objects && other != key ==> t.objects[other] == s.objects[other])
  {
    hide Step, Writes, StepError, IdleOk, Current, Sound;
    assert Ok(s, key);
    WritesNeedFresh(s.workers[key].read.runtime.status, FinalStep(s, s.workers[key], now, writeError));
  }

  /** No lost wake-ups, one step: with Lists that succeed, every action keeps the invariant. */
  lemma NextKeepsEverything(s: State, action: Action)
    requires NothingLost(s) && Enabled(s, action)
    requires action.AddSecret? || action.RemoveSecret? ==> action.listed
    ensures NothingLost(Next(s, action))
  {
    hide Ok;
    match action
    case CreateRuntime(key, uid, spec) =>
      Recorded(s, key);
      StoredAndQueued(s.(managed := s.managed[key := ManagedOf(s, key)]), Runtime(key, uid, 1, false, spec, EMPTY_STATUS));
    case EditSpec(key, spec) =>
      ObjectNamed(s, key);
      var runtime := s.objects[key].runtime;
      StoredAndQueued(s, runtime.(key := key, spec := spec, generation := runtime.generation + 1));
    case EditMetadata(key) => MetadataEdited(s, key); ObjectNamed(s, key);
    case MarkDeleting(key) =>
      ObjectNamed(s, key);
      var runtime := s.objects[key].runtime;
      StoredAndQueued(s, runtime.(key := key, deleting := true, generation := runtime.generation + 1));
    case RemoveRuntime(key) => RuntimeRemoved(s, key);
    case AddSecret(secret, _) => SecretChangeKeeps(s, s.secrets + {secret}, secret);
    case RemoveSecret(secret, _) => SecretChangeKeeps(s, s.secrets - {secret}, secret);
    case ChangeManaged(key, after) => ManagedPut(s, key, after);
    case Dequeue(key, getFails) => if !getFails { Dequeued(s, key); }
    case Proceed(key, error) => Proceeded(s, key, error);
    case Finish(key, now, writeError) => FinishKeeps(s, key, now, writeError);
  }

  lemma ObjectNamed(s: State, key: Key)
    requires NothingLost(s) && key in s.objects
    ensures s.objects[key].runtime.key == key && key in s.managed
  {
    assert Ok(s, key);
  }

  /******* Runs *******/

  const START := State(map[], {}, map[], {}, map[], 0)

  ghost predicate Possible(s: State, actions: seq<Action>)
    decreases |actions|
  {
    actions == [] || (Enabled(s, actions[0]) && Possible(Next(s, actions[0]), actions[1..]))
  }

  ghost function After(s: State, actions: seq<Action>): State
    requires Possible(s, actions)
    decreases |actions|
  {
    if actions == [] then s else After(Next(s, actions[0]), actions[1..])
  }

  /** No Secret change of the run had a failing List. */
  ghost predicate AllListed(actions: seq<Action>) {
    forall i :: 0 <= i < |actions| && (actions[i].AddSecret? || actions[i].RemoveSecret?) ==> actions[i].listed
  }

  lemma {:induction false} InvariantOfRuns(s: State, actions: seq<Action>)
    requires NothingLost(s) && Possible(s, actions) && AllListed(actions)
    ensures NothingLost(After(s, actions))
    decreases |actions|
  {
    if actions == [] {
    } else {
      hide NothingLost, Next, Enabled;
      NextKeepsEverything(s, actions[0]);
      assert AllListed(actions[1..]) by { assert forall i :: 0 <= i < |actions[1..]| ==> actions[1..][i] == actions[i + 1]; }
      InvariantOfRuns(Next(s, actions[0]), actions[1..]);
    }
  }

  /** No lost wake-ups: in every state the protocol can reach, a live runtime that is neither
      queued nor being worked on reports its current generation, and reports ConfigurationValid
      exactly when every Secret it references exists. */
  lemma NoLostWakeUps(actions: seq<Action>, key: Key)
    requires Possible(START, actions) && AllListed(actions)
    ensures var s := After(START, actions);
            key in s.objects && !s.objects[key].runtime.deleting && key !in s.queue && key !in s.workers ==>
            && s.objects[key].runtime.status.observedGeneration == s.objects[key].runtime.generation
            && (Holds(s.objects[key].runtime.status, ConfigurationValid) <==> AllResolved(s.objects[key].runtime, s.secrets))
  {
    assert NothingLost(START);
    InvariantOfRuns(START, actions);
    assert Ok(After(START, actions), key);
    hide Possible, Holds, AllResolved;
  }

  /******* Stored statuses *******/

  /** The status arises from the empty one by reconciles of schema-valid specs. */
  ghost predicate FromRun(status: Status) {
    exists run :: SchemaValidRun(run) && StatusAfter(run) == status
  }

  ghost predicate Genuine(runtime: Runtime) {
    RuntimeImage(runtime.spec.image) != "" && FromRun(runtime.status)
  }

  ghost predicate AllGenuine(s: State) {
    && (forall key :: key in s.objects ==> Genuine(s.objects[key].runtime))
    && (forall key :: key in s.workers ==> Genuine(s.workers[key].read.runtime))
  }

  /** Users submit schema-valid images only. */
  ghost predicate Admitted(actions: seq<Action>) {
    forall i :: 0 <= i < |actions| && (actions[i].CreateRuntime? || actions[i].EditSpec?) ==>
      RuntimeImage(actions[i].spec.image) != ""
  }

  lemma EmptyFromRun()
    ensures FromRun(EMPTY_STATUS)
  {
    assert SchemaValidRun([]) && StatusAfter([]) == EMPTY_STATUS;
  }

  lemma StepFromRun(status: Status, step: Reconcile)
    requires FromRun(status) && SchemaValid(step)
    ensures FromRun(Step(status, step))
  {
    hide Step, SchemaValid;
    var run :| SchemaValidRun(run) && StatusAfter(run) == status;
    StatusAfterAppend(run, step);
    assert SchemaValidRun(run + [step]);
  }

  lemma PutKeepsGenuine(s: State, runtime: Runtime)
    requires AllGenuine(s) && Genuine(runtime)
    ensures AllGenuine(PutRuntime(s, runtime))
  {
    hide Genuine;
  }

  lemma FinishKeepsGenuine(s: State, key: Key, step: Reconcile)
    requires AllGenuine(s) && key in s.workers
    requires step.spec == s.workers[key].read.runtime.spec
    ensures AllGenuine(Finished(s, key, step))
  {
    var runtime := s.workers[key].read.runtime;
    assert Genuine(runtime);
    StepFromRun(runtime.status, step);
    hide FromRun, RuntimeImage, Step, Writes, StepError;
    var done := s.(workers := s.workers - {key});
    PutKeepsGenuine(done, runtime.(status := Step(runtime.status, step)));
    hide Genuine;
  }

  lemma WorkerKeepsGenuine(s: State, key: Key, worker: Worker)
    requires AllGenuine(s)
    requires (key in s.objects && worker.read == s.objects[key]) || (key in s.workers && worker.read == s.workers[key].read)
    ensures AllGenuine(s.(workers := s.workers[key := worker]))
  {
    hide Genuine;
  }

  /** An edit by a user. */
  lemma EditKeepsGenuine(s: State, key: Key, edited: Runtime)
    requires AllGenuine(s) && key in s.objects && edited.status == s.objects[key].runtime.status
    requires edited.spec == s.objects[key].runtime.spec || RuntimeImage(edited.spec.image) != ""
    ensures AllGenuine(PutRuntime(s, edited))
  {
    hide FromRun, RuntimeImage, PutRuntime;
    assert Genuine(s.objects[key].runtime);
    PutKeepsGenuine(s, edited);
  }

  ghost predicate SubsetOf(s: State, t: State) {
    t.workers == s.workers && forall key :: key in t.objects ==> key in s.objects && t.objects[key] == s.objects[key]
  }

  /** Queueing, Secrets and forgetting objects do not matter. */
  lemma SubsetKeepsGenuine(s: State, t: State)
    requires AllGenuine(s)
    requires SubsetOf(s, t)
    ensures AllGenuine(t)
  {
    hide Genuine;
  }

  lemma UsersKeepGenuine(s: State, action: Action)
    requires AllGenuine(s) && Enabled(s, action) && Admitted([action])
    requires action.CreateRuntime? || action.EditSpec? || action.EditMetadata? || action.MarkDeleting?
    ensures AllGenuine(Next(s, action))
  {
    hide AllGenuine, RuntimeImage, FromRun;
    assert [action][0] == action;
    hide Admitted;
    var t, key := Next(s, action), action.key;
    var edited := t.objects[key].runtime;
    assert SubsetOf(PutRuntime(s, edited), t);
    if action.CreateRuntime? {
      EmptyFromRun();
      PutKeepsGenuine(s, edited);
    } else {
      EditKeepsGenuine(s, key, edited);
    }
    SubsetKeepsGenuine(PutRuntime(s, edited), t);
  }

  lemma WorkersKeepGenuine(s: State, action: Action)
    requires AllGenuine(s) && Enabled(s, action) && (action.Dequeue? || action.Proceed?)
    ensures AllGenuine(Next(s, action))
  {
    hide AllGenuine, Advance, WokenBy;
    var t, key := Next(s, action), action.key;
    var before := s.(queue := t.queue, managed := t.managed);
    SubsetKeepsGenuine(s, before);
    if action.Proceed? { AdvanceFrame(s.workers[key], ManagedOf(s, key), s.secrets, action.error); }
    if t != before { WorkerKeepsGenuine(before, key, t.workers[key]); }
  }

  lemma NextKeepsGenuine(s: State, action: Action)
    requires AllGenuine(s) && Enabled(s, action) && Admitted([action])
    ensures AllGenuine(Next(s, action))
  {
    hide AllGenuine, Admitted, Finished, FinalStep, PutRuntime, Advance, WokenBy;
    match action
    case RemoveRuntime(_) => SubsetKeepsGenuine(s, Next(s, action));
    case AddSecret(_, _) => SubsetKeepsGenuine(s, Next(s, action));
    case RemoveSecret(_, _) => SubsetKeepsGenuine(s, Next(s, action));
    case ChangeManaged(_, _) => SubsetKeepsGenuine(s, Next(s, action));
    case Dequeue(_, _) => WorkersKeepGenuine(s, action);
    case Proceed(_, _) => WorkersKeepGenuine(s, action);
    case Finish(key, now, writeError) =>
      FinalStepSpec(s, s.workers[key], now, writeError);
      FinishKeepsGenuine(s, key, FinalStep(s, s.workers[key], now, writeError));
    case _ => UsersKeepGenuine(s, action);
  }

  lemma FinalStepSpec(s: State, worker: Worker, now: Clock, writeError: Option<string>)
    requires worker.Reporting?
    ensures FinalStep(s, worker, now, writeError).spec == worker.read.runtime.spec
  {
  }

  lemma {:induction false} GenuineRuns(s: State, actions: seq<Action>)
    requires AllGenuine(s) && Possible(s, actions) && Admitted(actions)
    ensures AllGenuine(After(s, actions))
    decreases |actions|
  {
    if actions == [] {
    } else {
      hide AllGenuine, Next, Enabled;
      var rest := actions[1..];
      assert forall i :: 0 <= i < |rest| ==> rest[i] == actions[i + 1];
      NextKeepsGenuine(s, actions[0]);
      GenuineRuns(Next(s, actions[0]), rest);
    }
  }

  /** The queue protocol runs the status machine: whatever users, Secrets, watches, workers and
      failing Lists do, every stored status arises from a run of reconciles, and so everything
      proved of such runs holds of it. */
  lemma StoredStatusesFromRuns(actions: seq<Action>, key: Key)
    requires Possible(START, actions) && Admitted(actions)
    ensures var s := After(START, actions);
            key in s.objects ==> FromRun(s.objects[key].runtime.status) && Invariant(s.objects[key].runtime.status)
  {
    GenuineRuns(START, actions);
    hide Possible, Invariant;
    var s := After(START, actions);
    if key in s.objects {
      var run :| SchemaValidRun(run) && StatusAfter(run) == s.objects[key].runtime.status;
      RunInvariant(run);
    }
  }
}
