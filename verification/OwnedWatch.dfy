/** The watches on owned objects: what the work queue guarantees about the managed objects and about
    the workload a status reports, however the reconciles interleave with everybody else. */
module OwnedWatch {
  import opened Wrappers
  import opened RuntimeApi
  import opened RuntimeResources
  import opened Conditions
  import opened DeploymentRollout
  import opened RuntimeStatus
  import opened StatusProperties
  import opened StatusRuns
  import opened EventTraces
  import opened SecretReferences
  import opened ManagedResources
  import opened Reconciler
  import opened WatchQueue
  import opened Workers

  /******* The invariant *******/

  /** What validation says about the Secrets as they are. */
  function CheckNow(runtime: Runtime, secrets: set<Key>): Outcome {
    OutcomeOf(CheckReferences(runtime.spec, runtime.key.namespace, secrets, map[]), runtime.key.namespace)
  }

  function ReportStep(runtime: Runtime, observation: Observation, outcome: Outcome, now: Clock): Reconcile {
    Reconcile(runtime.key, runtime.generation, runtime.spec, observation, outcome, now, None)
  }

  /** The stored status is what a reconcile with this observation and outcome reports: it would have
      nothing to write, whenever it ran. */
  ghost predicate Accurate(runtime: Runtime, observation: Observation, outcome: Outcome) {
    forall now :: !Writes(runtime.status, ReportStep(runtime, observation, outcome, now))
  }

  /** The first `n` kinds conform, as far as the spec wants them. */
  ghost predicate Conforming(m: Managed, runtime: Runtime, n: nat) {
    forall i :: 0 <= i < n && i < |ORDER| && !Disabled(ORDER[i], runtime.spec) ==> Conforms(ORDER[i], m, runtime)
  }

  const VALID := Validated(ReferencesValid)

  /** The reported workload is to be the current one: always, if `all` changes to it concern the
      runtime, and in any case while its references resolve. */
  predicate Tracks(outcome: Outcome, all: bool) {
    all || outcome == VALID
  }

  /** What a worker holds still agrees with the store. */
  ghost predicate Grounded(worker: Worker, m: Managed, secrets: set<Key>, all: bool) {
    var runtime := worker.read.runtime;
    match worker
    case Validating(_, _) => true
    case Reconciling(_, done) => CheckNow(runtime, secrets) == VALID && Conforming(m, runtime, done)
    case Observing(_, outcome, deployment) =>
      && outcome == CheckNow(runtime, secrets)
      && (outcome == VALID ==> Conforming(m, runtime, |ORDER|))
      && (deployment.Some? && Tracks(outcome, all) ==> deployment.value == Body(m.deployment))
    case Recovering(_, _) => true
    case Reporting(_, outcome, observation) =>
      outcome.Validated? ==>
        && outcome == CheckNow(runtime, secrets)
        && (outcome == VALID ==> Conforming(m, runtime, |ORDER|))
        && (Tracks(outcome, all) ==> observation == Observe(m))
  }

  /** A live runtime that nobody is working on and that is not queued has its objects as it wants
      them, and its status reports them as they are. */
  ghost predicate IdleGrounded(runtime: Runtime, m: Managed, secrets: set<Key>, all: bool) {
    var outcome := CheckNow(runtime, secrets);
    && (outcome == VALID ==> Conforming(m, runtime, |ORDER|))
    && (Tracks(outcome, all) ==> Accurate(runtime, Observe(m), outcome))
  }

  ghost predicate GroundedAt(s: State, key: Key, all: bool) {
    key !in s.queue ==>
      && (key in s.workers ==> Grounded(s.workers[key], ManagedOf(s, key), s.secrets, all))
      && (key !in s.workers && key in s.objects && !s.objects[key].runtime.deleting ==>
          IdleGrounded(s.objects[key].runtime, ManagedOf(s, key), s.secrets, all))
  }

  ghost predicate AllGrounded(s: State, all: bool) {
    forall key: Key :: GroundedAt(s, key, all)
  }

  /******* Preservation *******/

  /** A key that an action does not concern keeps its part of the invariant. */
  lemma GroundedFrame(s: State, t: State, key: Key, all: bool)
    requires GroundedAt(s, key, all) && s.secrets == t.secrets && ManagedOf(s, key) == ManagedOf(t, key)
    requires key in s.objects <==> key in t.objects
    requires key in s.objects ==> s.objects[key].runtime == t.objects[key].runtime
    requires key in s.workers <==> key in t.workers
    requires key in s.workers ==> s.workers[key] == t.workers[key]
    requires key in s.queue ==> key in t.queue
    ensures GroundedAt(t, key, all)
  {
    hide Grounded, IdleGrounded, ManagedOf;
  }

  /** A runtime that does not reference a Secret validates as before when it changes. */
  lemma CheckStays(runtime: Runtime, before: set<Key>, after: set<Key>, secret: Key)
    requires before - {secret} == after - {secret}
    requires runtime.key.namespace != secret.namespace || !References(runtime.spec, secret.name)
    ensures CheckNow(runtime, before) == CheckNow(runtime, after)
  {
    SecretIrrelevant(runtime, before, after, secret);
    hide ReferencedNames, CheckSecrets;
    var names := SecretNames(runtime.spec);
    forall i | 0 <= i < |names|
      ensures Key(runtime.key.namespace, names[i]) in before <==> Key(runtime.key.namespace, names[i]) in after
    {
      assert names[i] in names;
    }
    UnlistedSecretIrrelevant(names, runtime.key.namespace, before, after, map[]);
  }

  lemma SecretChangeGrounds(s: State, secrets: set<Key>, secret: Key, all: bool)
    requires NothingLost(s) && AllGrounded(s, all) && s.secrets - {secret} == secrets - {secret}
    ensures AllGrounded(SecretChanged(s.(secrets := secrets), secret, true), all)
  {
    var t := SecretChanged(s.(secrets := secrets), secret, true);
    hide CheckNow, Accurate, Conforming, ReferencedNames, UpToDate, Current, Observe, ManagedOf;
    forall key: Key ensures GroundedAt(t, key, all) {
      assert GroundedAt(s, key, all) && Ok(s, key);
      if key !in t.queue && key in s.objects {
        var runtime := s.objects[key].runtime;
        assert Runtimes(s.(secrets := secrets))[key] == runtime;
        CheckStays(runtime, s.secrets, secrets, secret);
        SameOfManaged(s, t, key);
      }
    }
  }

  lemma SameOfManaged(s: State, t: State, key: Key)
    requires s.managed == t.managed
    ensures ManagedOf(s, key) == ManagedOf(t, key)
  {
  }

  /** What the next call adds is in line with the store. */
  lemma LookupGrounds(read: Object, checked: nat, m: Managed, secrets: set<Key>, error: Option<string>, all: bool)
    requires Current(Validating(read, checked), secrets)
    ensures Grounded(LookedUp(read, checked, secrets, error), m, secrets, all)
  {
    hide ReferencedNames, CheckSecrets;
    var runtime := read.runtime;
    var namespace, names := runtime.key.namespace, SecretNames(runtime.spec);
    LookupsStopAtFirst(names, namespace, secrets, map[]);
    if checked < |names| && Key(namespace, names[checked]) !in secrets {
      assert FirstBlocked(names, namespace, secrets, map[], checked);
    }
  }

  lemma StepGrounds(read: Object, done: nat, m: Managed, secrets: set<Key>, error: Option<string>, all: bool)
    requires Grounded(Reconciling(read, done), m, secrets, all)
    ensures var next := SteppedOn(read, done, m, error);
            Grounded(next.worker, next.managed, secrets, all)
  {
    hide CheckNow, Conforms, Conflict, KeepsUnmanaged, Agree, Apply, CoreErrorText, Observe;
    var next, runtime := SteppedOn(read, done, m, error), read.runtime;
    if done < |ORDER| && next.worker.Reconciling? {
      ApplyStep(ORDER[done], m, runtime);
      OrderHasNoRepeats();
      forall i | 0 <= i < done + 1 && !Disabled(ORDER[i], runtime.spec) ensures Conforms(ORDER[i], next.managed, runtime) {
        if i < done {
          assert ORDER[i] != ORDER[done];
          AgreeTransfers(ORDER[i], m, next.managed, runtime);
        }
      }
    }
  }

  lemma AdvanceGrounds(worker: Worker, m: Managed, secrets: set<Key>, error: Option<string>, all: bool)
    requires !worker.Reporting? && Current(worker, secrets) && Sound(worker) && Grounded(worker, m, secrets, all)
    ensures var next := Advance(worker, m, secrets, error);
            Grounded(next.worker, next.managed, secrets, all)
  {
    hide CheckNow, Conforming, SecretNames, AllResolved, LookedUp, SteppedOn;
    match worker
    case Validating(read, checked) => LookupGrounds(read, checked, m, secrets, error, all);
    case Reconciling(read, done) => StepGrounds(read, done, m, secrets, error, all);
    case _ => {}
  }

  /** A change that does not wake the runtime leaves the objects it controls alone. */
  lemma UnconcernedKeeps(m: Managed, after: Managed, runtime: Runtime, kind: Kind)
    requires runtime.key !in WokenBy(m, after, runtime.key.namespace)
    requires Conforms(kind, m, runtime) && !Disabled(kind, runtime.spec)
    ensures Agree(kind, m, after) && Conforms(kind, after, runtime)
  {
    hide WokenBy, Conforms, Agree, ControlledAt;
    WokenIff(m, after, runtime.key);
    ConformingIsControlled(kind, m, runtime);
    assert !ConcernsAt(kind, m, after, runtime.key);
    AgreeTransfers(kind, m, after, runtime);
  }

  lemma UnconcernedConforming(m: Managed, after: Managed, runtime: Runtime, n: nat)
    requires runtime.key !in WokenBy(m, after, runtime.key.namespace) && Conforming(m, runtime, n)
    ensures Conforming(after, runtime, n)
    ensures n == |ORDER| ==> Observe(m) == Observe(after)
  {
    hide WokenBy, Conforms;
    forall i | 0 <= i < n && i < |ORDER| && !Disabled(ORDER[i], runtime.spec) ensures Conforms(ORDER[i], after, runtime) {
      UnconcernedKeeps(m, after, runtime, ORDER[i]);
    }
    if n == |ORDER| {
      assert ORDER[2] == Services && ORDER[3] == Deployments;
      UnconcernedKeeps(m, after, runtime, Services);
      UnconcernedKeeps(m, after, runtime, Deployments);
    }
  }

  /** The change of the Deployment or the Service, if there is one, concerns the runtime. */
  predicate Attributed(m: Managed, after: Managed, key: Key) {
    && (m.deployment != after.deployment ==> ConcernsAt(Deployments, m, after, key))
    && (m.service != after.service ==> ConcernsAt(Services, m, after, key))
  }

  lemma AttributedIsNoticed(m: Managed, after: Managed, key: Key)
    requires Attributed(m, after, key) && key !in WokenBy(m, after, key.namespace)
    ensures Observe(m) == Observe(after) && m.deployment == after.deployment && m.service == after.service
  {
    hide WokenBy, ConcernsAt;
    WokenIff(m, after, key);
  }

  lemma ChangeGrounds(worker: Worker, m: Managed, after: Managed, secrets: set<Key>, all: bool)
    requires Grounded(worker, m, secrets, all) && worker.read.runtime.key !in WokenBy(m, after, worker.read.runtime.key.namespace)
    requires all ==> Attributed(m, after, worker.read.runtime.key)
    ensures Grounded(worker, after, secrets, all)
  {
    hide WokenBy, Conforming, CheckNow, Attributed;
    var runtime := worker.read.runtime;
    if all { AttributedIsNoticed(m, after, runtime.key); }
    match worker
    case Reconciling(_, done) => UnconcernedConforming(m, after, runtime, done);
    case Observing(_, outcome, _) => if outcome == VALID { UnconcernedConforming(m, after, runtime, |ORDER|); }
    case Reporting(_, outcome, _) => if outcome == VALID { UnconcernedConforming(m, after, runtime, |ORDER|); }
    case _ => {}
  }

  lemma ChangeGroundsIdle(runtime: Runtime, m: Managed, after: Managed, secrets: set<Key>, all: bool)
    requires IdleGrounded(runtime, m, secrets, all) && runtime.key !in WokenBy(m, after, runtime.key.namespace)
    requires all ==> Attributed(m, after, runtime.key)
    ensures IdleGrounded(runtime, after, secrets, all)
  {
    hide WokenBy, Conforming, CheckNow, Attributed, Accurate, Observe;
    if all { AttributedIsNoticed(m, after, runtime.key); }
    if CheckNow(runtime, secrets) == VALID { UnconcernedConforming(m, after, runtime, |ORDER|); }
  }

  lemma TargetIgnoresWrite(stored: Status, step: Reconcile, writeError: Option<string>)
    ensures TargetOf(stored, step.(writeError := writeError)) == TargetOf(stored, step)
  {
    hide Target;
  }

  /** A report that came through, or was not needed, stays accurate. */
  lemma ReportIsAccurate(runtime: Runtime, step: Reconcile)
    requires step.key == runtime.key && step.generation == runtime.generation && step.spec == runtime.spec
    requires step.outcome.Validated? && StepError(runtime.status, step).None?
    requires SchemaValid(step) && Unique(runtime.status.conditions)
    ensures Accurate(runtime.(status := Step(runtime.status, step)), step.observation, step.outcome)
  {
    var stored, next := runtime.status, Step(runtime.status, step);
    var sure := step.(writeError := None);
    TargetIgnoresWrite(stored, step, None);
    assert Step(stored, sure) == next by { hide TargetOf; }
    hide TargetOf, Step, Unique;
    forall now ensures !Writes(next, ReportStep(runtime.(status := next), step.observation, step.outcome, now)) {
      RepeatedReconcileIsQuiet(stored, sure, now, None);
      assert sure.(now := now, writeError := None) == ReportStep(runtime.(status := next), step.observation, step.outcome, now);
    }
  }

  lemma GenuineIsUnique(runtime: Runtime)
    requires Genuine(runtime)
    ensures Unique(runtime.status.conditions)
  {
    hide Lifecycle, Coherent, RuntimeImage;
    var run :| SchemaValidRun(run) && StatusAfter(run) == runtime.status;
    RunInvariant(run);
  }

  lemma FinishGrounds(s: State, key: Key, now: Clock, writeError: Option<string>, all: bool)
    requires Ok(s, key) && GroundedAt(s, key, all) && key in s.workers && s.workers[key].Reporting?
    requires Genuine(s.workers[key].read.runtime)
    ensures GroundedAt(Finished(s, key, FinalStep(s, s.workers[key], now, writeError)), key, all)
  {
    var worker := s.workers[key];
    var runtime, step := worker.read.runtime, FinalStep(s, worker, now, writeError);
    hide Accurate, CheckReferences, Conforming, Step, Writes, StepError, UpToDate, Current, Observe, TargetOf, Unique, RuntimeImage, FromRun;
    var t := Finished(s, key, step);
    if key !in t.queue {
      FailureIsAnError(runtime.status, step);
      GenuineIsUnique(runtime);
      ReportIsAccurate(runtime, step);
      if !Writes(runtime.status, step) { SilentWithoutWriteStep(runtime.status, step); }
      SameOfManaged(s, t, key);
      hide ManagedOf;
      FinishedIdle(runtime, step, ManagedOf(s, key), s.secrets, all);
    }
  }

  lemma FinishedIdle(runtime: Runtime, step: Reconcile, m: Managed, secrets: set<Key>, all: bool)
    requires step.outcome.Validated? && step.outcome == CheckNow(runtime, secrets)
    requires step.outcome == VALID ==> Conforming(m, runtime, |ORDER|)
    requires Tracks(step.outcome, all) ==> step.observation == Observe(m)
    requires Accurate(runtime.(status := Step(runtime.status, step)), step.observation, step.outcome)
    ensures IdleGrounded(runtime.(status := Step(runtime.status, step)), m, secrets, all)
  {
    hide Accurate, CheckReferences, Step, Observe;
    var next := runtime.(status := Step(runtime.status, step));
    assert CheckNow(next, secrets) == CheckNow(runtime, secrets);
    if step.outcome == VALID { StatusDoesNotMatter(m, runtime, next, |ORDER|); }
  }

  lemma StatusDoesNotMatter(m: Managed, runtime: Runtime, next: Runtime, n: nat)
    requires Conforming(m, runtime, n) && next == runtime.(status := next.status)
    ensures Conforming(m, next, n)
  {
    hide ConfigData, RuntimeLabels, SelectorLabels, DesiredTemplate, ServiceKind, ServicePort;
    forall i | 0 <= i < n && i < |ORDER| && !Disabled(ORDER[i], next.spec) ensures Conforms(ORDER[i], m, next) {
      assert Conforms(ORDER[i], m, runtime);
    }
  }

  ghost predicate AttributedAction(s: State, action: Action) {
    action.ChangeManaged? ==> Attributed(ManagedOf(s, action.key), action.after, action.key)
  }

  lemma ManagedChangeGrounds(s: State, key: Key, after: Managed, all: bool)
    requires NothingLost(s) && AllGrounded(s, all) && (all ==> Attributed(ManagedOf(s, key), after, key))
    ensures AllGrounded(PutManaged(s, key, after), all)
  {
    var t := PutManaged(s, key, after);
    hide Grounded, IdleGrounded, UpToDate, Current, WokenBy, Attributed;
    forall other: Key ensures GroundedAt(t, other, all) {
      assert GroundedAt(s, other, all) && Ok(s, other);
      if other != key {
        GroundedFrame(s, t, other, all);
      } else if key !in t.queue {
        if key in s.workers {
          ChangeGrounds(s.workers[key], ManagedOf(s, key), after, s.secrets, all);
        } else if key in s.objects && !s.objects[key].runtime.deleting {
          ChangeGroundsIdle(s.objects[key].runtime, ManagedOf(s, key), after, s.secrets, all);
        }
      }
    }
  }

  lemma ProceedGrounds(s: State, key: Key, error: Option<string>, all: bool)
    requires NothingLost(s) && AllGrounded(s, all) && key in s.workers && !s.workers[key].Reporting?
    ensures AllGrounded(Next(s, Proceed(key, error)), all)
  {
    hide Grounded, IdleGrounded, UpToDate, Current, WokenBy, Advance, Sound;
    var t := Next(s, Proceed(key, error));
    forall other: Key ensures GroundedAt(t, other, all) {
      assert GroundedAt(s, other, all) && Ok(s, other);
      if other != key {
        GroundedFrame(s, t, other, all);
      } else if key !in t.queue {
        AdvanceGrounds(s.workers[key], ManagedOf(s, key), s.secrets, error, all);
      }
    }
  }

  /** Whatever queues the key it concerns and leaves the others alone. */
  lemma QueuedGrounds(s: State, t: State, key: Key, all: bool)
    requires AllGrounded(s, all) && key in t.queue && s.secrets == t.secrets && s.queue <= t.queue && s.workers == t.workers
    requires forall other :: other != key ==> (other in s.objects <==> other in t.objects)
    requires forall other :: other != key && other in s.objects ==> s.objects[other] == t.objects[other]
    requires forall other :: ManagedOf(s, other) == ManagedOf(t, other)
    ensures AllGrounded(t, all)
  {
    hide GroundedAt, ManagedOf;
    forall other: Key ensures GroundedAt(t, other, all) {
      assert GroundedAt(s, other, all);
      if other != key { GroundedFrame(s, t, other, all); } else { QueuedIsGrounded(t, key, all); }
    }
  }

  lemma QueuedIsGrounded(t: State, key: Key, all: bool)
    requires key in t.queue
    ensures GroundedAt(t, key, all)
  {
  }

  lemma DequeueGrounds(s: State, key: Key, all: bool)
    requires AllGrounded(s, all) && key in s.queue && key !in s.workers
    ensures AllGrounded(Next(s, Dequeue(key, false)), all)
  {
    var t := Next(s, Dequeue(key, false));
    hide IdleGrounded, CheckNow, Conforming, ManagedOf, Observe;
    forall other: Key ensures GroundedAt(t, other, all) {
      assert GroundedAt(s, other, all);
      if other != key {
        SameOfManaged(s, t, other);
        GroundedFrame(s, t, other, all);
      }
    }
  }

  lemma MetadataGrounds(s: State, key: Key, all: bool)
    requires NothingLost(s) && AllGrounded(s, all) && key in s.objects
    ensures AllGrounded(Next(s, EditMetadata(key)), all)
  {
    var t := Next(s, EditMetadata(key));
    hide Grounded, IdleGrounded, UpToDate, Current, ManagedOf;
    assert Ok(s, key);
    forall other: Key ensures GroundedAt(t, other, all) {
      assert GroundedAt(s, other, all);
      SameOfManaged(s, t, other);
      GroundedFrame(s, t, other, all);
    }
  }

  lemma FinishGroundsOther(s: State, key: Key, step: Reconcile, other: Key, all: bool)
    requires GroundedAt(s, other, all) && other != key && key in s.workers && s.workers[key].read.runtime.key == key
    ensures GroundedAt(Finished(s, key, step), other, all)
  {
    hide Step, Writes, StepError, ManagedOf, GroundedAt;
    SameOfManaged(s, Finished(s, key, step), other);
    GroundedFrame(s, Finished(s, key, step), other, all);
  }

  lemma FinishGroundsAll(s: State, key: Key, now: Clock, writeError: Option<string>, all: bool)
    requires NothingLost(s) && AllGrounded(s, all) && AllGenuine(s) && key in s.workers && s.workers[key].Reporting?
    ensures AllGrounded(Finished(s, key, FinalStep(s, s.workers[key], now, writeError)), all)
  {
    hide Finished, FinalStep, GroundedAt, IdleOk, Current, Genuine;
    var step := FinalStep(s, s.workers[key], now, writeError);
    assert Ok(s, key) && Genuine(s.workers[key].read.runtime);
    forall other: Key ensures GroundedAt(Finished(s, key, step), other, all) {
      assert GroundedAt(s, other, all);
      if other != key {
        FinishGroundsOther(s, key, step, other, all);
      } else {
        FinishGrounds(s, key, now, writeError, all);
      }
    }
  }

  /** One step: with Lists that succeed, schema-valid specs, and changes that concern the runtime if
      `all` do, every action keeps the invariant. */
  lemma NextKeepsGrounded(s: State, action: Action, all: bool)
    requires NothingLost(s) && AllGenuine(s) && AllGrounded(s, all) && Enabled(s, action)
    requires action.AddSecret? || action.RemoveSecret? ==> action.listed
    requires all ==> AttributedAction(s, action)
    ensures AllGrounded(Next(s, action), all)
  {
    hide NothingLost, AllGenuine, AllGrounded, Attributed, Finished, FinalStep, Advance, WokenBy;
    match action
    case EditMetadata(key) => MetadataGrounds(s, key, all);
    case AddSecret(secret, _) => SecretChangeGrounds(s, s.secrets + {secret}, secret, all);
    case RemoveSecret(secret, _) => SecretChangeGrounds(s, s.secrets - {secret}, secret, all);
    case ChangeManaged(key, after) => ManagedChangeGrounds(s, key, after, all);
    case Dequeue(key, getFails) => if !getFails { DequeueGrounds(s, key, all); }
    case Proceed(key, error) => ProceedGrounds(s, key, error, all);
    case Finish(key, now, writeError) => FinishGroundsAll(s, key, now, writeError, all);
    case _ => QueuedGrounds(s, Next(s, action), action.key, all);
  }

  /******* Runs *******/

  /** Every change of a Deployment or Service in the run concerns the runtime of that name. */
  ghost predicate AllAttributed(s: State, actions: seq<Action>)
    requires Possible(s, actions)
    decreases |actions|
  {
    actions == [] || (AttributedAction(s, actions[0]) && AllAttributed(Next(s, actions[0]), actions[1..]))
  }

  lemma {:induction false} GroundedRuns(s: State, actions: seq<Action>, all: bool)
    requires NothingLost(s) && AllGenuine(s) && AllGrounded(s, all)
    requires Possible(s, actions) && AllListed(actions) && Admitted(actions) && (all ==> AllAttributed(s, actions))
    ensures AllGrounded(After(s, actions), all)
    decreases |actions|
  {
    if actions == [] {
    } else {
      hide NothingLost, AllGenuine, AllGrounded, Next, Enabled, AttributedAction;
      var rest := actions[1..];
      assert forall i :: 0 <= i < |rest| ==> rest[i] == actions[i + 1];
      NextKeepsEverything(s, actions[0]);
      NextKeepsGenuine(s, actions[0]);
      NextKeepsGrounded(s, actions[0], all);
      GroundedRuns(Next(s, actions[0]), rest, all);
    }
  }

  lemma StartIsGrounded(all: bool)
    ensures NothingLost(START) && AllGenuine(START) && AllGrounded(START, all)
  {
  }

  ghost predicate Idle(s: State, key: Key) {
    key in s.objects && !s.objects[key].runtime.deleting && key !in s.queue && key !in s.workers
  }

  lemma RunIsGrounded(actions: seq<Action>, key: Key, all: bool)
    requires Possible(START, actions) && AllListed(actions) && Admitted(actions) && (all ==> AllAttributed(START, actions))
    ensures var s := After(START, actions);
            Idle(s, key) ==> IdleGrounded(s.objects[key].runtime, ManagedOf(s, key), s.secrets, all)
  {
    hide Possible, After, IdleGrounded, Grounded, NothingLost, AllGenuine, ManagedOf, AllAttributed;
    StartIsGrounded(all);
    GroundedRuns(START, actions, all);
    assert GroundedAt(After(START, actions), key, all);
  }

  /** No drift goes unnoticed: in every state the protocol can reach, whoever changed whatever, an
      idle live runtime whose references resolve has every object its spec wants as the spec wants
      it, and its status says exactly what a reconcile would now report of them. */
  lemma NoLostDrift(actions: seq<Action>, key: Key)
    requires Possible(START, actions) && AllListed(actions) && Admitted(actions)
    ensures var s := After(START, actions);
            Idle(s, key) && CheckNow(s.objects[key].runtime, s.secrets) == VALID ==>
            && (forall kind :: !Disabled(kind, s.objects[key].runtime.spec) ==> Conforms(kind, ManagedOf(s, key), s.objects[key].runtime))
            && Accurate(s.objects[key].runtime, Observe(ManagedOf(s, key)), VALID)
  {
    hide Possible, After, Conforms, Disabled, Accurate, CheckNow, ManagedOf, Observe;
    RunIsGrounded(actions, key, false);
    OrderHasNoRepeats();
    var s := After(START, actions);
    if Idle(s, key) && CheckNow(s.objects[key].runtime, s.secrets) == VALID {
      var runtime, m := s.objects[key].runtime, ManagedOf(s, key);
      forall kind | !Disabled(kind, runtime.spec) ensures Conforms(kind, m, runtime) {
        assert kind in ORDER;
        var i :| 0 <= i < |ORDER| && ORDER[i] == kind;
      }
    }
  }

  /** And if everybody who changes a Deployment or a Service of that name leaves it under the
      runtime's control or takes it from there, every idle live runtime reports its workload as it
      is, also while its references do not resolve. */
  lemma NoLostObservation(actions: seq<Action>, key: Key)
    requires Possible(START, actions) && AllListed(actions) && Admitted(actions) && AllAttributed(START, actions)
    ensures var s := After(START, actions);
            Idle(s, key) ==>
            Accurate(s.objects[key].runtime, Observe(ManagedOf(s, key)), CheckNow(s.objects[key].runtime, s.secrets))
  {
    hide Possible, After, Idle, Accurate, CheckNow, ManagedOf, Observe, AllAttributed;
    RunIsGrounded(actions, key, true);
  }

  /******* Idle and settled *******/

  lemma {:induction false} ConformingPassIsNoOp(kinds: seq<Kind>, m: Managed, runtime: Runtime)
    requires forall kind :: Conforms(kind, m, runtime)
    ensures ReconcileKinds(kinds, m, runtime, map[]) == CoreResult(m, None)
  {
    hide Conforms, Apply;
    if kinds == [] {
    } else {
      ConformingIsStable(kinds[0], m, runtime);
      ConformingPassIsNoOp(kinds[1..], m, runtime);
    }
  }

  lemma AccurateIsSettled(runtime: Runtime, m: Managed, secrets: set<Key>)
    requires CheckNow(runtime, secrets) == VALID && Accurate(runtime, Observe(m), VALID)
    requires forall kind :: Conforms(kind, m, runtime)
    ensures Settled(runtime, m, secrets)
  {
    hide Conforms, CheckReferences, ReconcileKinds, Observe, Step, Writes, CoreErrorText;
    ConformingPassIsNoOp(ORDER, m, runtime);
    var verdict := VerdictOf(runtime, m, secrets, NO_FAULTS);
    assert verdict == Verdict(m, VALID, Observe(m));
    forall now ensures Step(runtime.status, StatusStep(runtime, verdict, NO_FAULTS, now)) == runtime.status {
      assert StatusStep(runtime, verdict, NO_FAULTS, now) == ReportStep(runtime, Observe(m), VALID, now);
      SilentWithoutWriteStep(runtime.status, StatusStep(runtime, verdict, NO_FAULTS, now));
    }
  }

  /** An idle live runtime whose references resolve, and whose name no object of a disabled kind
      carries, is at its fixpoint: there is nothing left to do for it. */
  lemma IdleIsSettled(actions: seq<Action>, key: Key)
    requires Possible(START, actions) && AllListed(actions) && Admitted(actions)
    ensures var s := After(START, actions);
            Idle(s, key) && CheckNow(s.objects[key].runtime, s.secrets) == VALID
            && (forall kind :: Disabled(kind, s.objects[key].runtime.spec) ==> Conforms(kind, ManagedOf(s, key), s.objects[key].runtime)) ==>
            SettledAt(ClusterOf(s), key)
  {
    hide Possible, After, Conforms, Disabled, Accurate, CheckNow, Observe, Settled;
    NoLostDrift(actions, key);
    var s := After(START, actions);
    if Idle(s, key) && CheckNow(s.objects[key].runtime, s.secrets) == VALID
       && forall kind :: Disabled(kind, s.objects[key].runtime.spec) ==> Conforms(kind, ManagedOf(s, key), s.objects[key].runtime) {
      AccurateIsSettled(s.objects[key].runtime, ManagedOf(s, key), s.secrets);
    }
  }

  /******* Workloads nobody controls *******/

  /** While references do not resolve, two observations lead to the same report: the same replica
      counts, current image and endpoint, and the same standing of the upgrade. */
  predicate SameReport(runtime: Runtime, a: Observation, b: Observation) {
    var last, desired := runtime.status.lastSuccessfulImage, RuntimeImage(runtime.spec.image);
    && Observed(runtime, a) == Observed(runtime, b)
    && NextLastSuccessful(runtime.spec, a.deployment, last) == NextLastSuccessful(runtime.spec, b.deployment, last)
    && (last != "" && last != desired ==> UpgradeReport(runtime.spec, a.deployment, last) == UpgradeReport(runtime.spec, b.deployment, last))
  }

  lemma SameReportSameTarget(runtime: Runtime, a: Observation, b: Observation, reason: Reason, message: Message, now: Clock)
    requires SameReport(runtime, a, b)
    ensures var outcome := Validated(ReferencesInvalid(reason, message));
            Target(runtime, a, outcome, now) == Target(runtime, b, outcome, now)
  {
    var last, tracked := runtime.status.lastSuccessfulImage, Find(runtime.status.conditions, Upgrading).Some?;
    UpgradeRowReports(runtime.spec, a.deployment, last, tracked);
    UpgradeRowReports(runtime.spec, b.deployment, last, tracked);
    assert UpgradeRow(runtime.spec, a.deployment, last, tracked) == UpgradeRow(runtime.spec, b.deployment, last, tracked) by {
      hide UpgradeReport, RuntimeImage, CurrentImage, ObserveRollout;
    }
    hide UpgradeRow, UpgradeReport, RuntimeImage, NextLastSuccessful, CurrentImage, ServiceEndpoint, Find, ApplyAll, Normalise;
    var outcome := Validated(ReferencesInvalid(reason, message));
    assert Updates(runtime, a.deployment, outcome, now) == Updates(runtime, b.deployment, outcome, now);
  }

  lemma SameTargetSameReport(runtime: Runtime, a: Observation, b: Observation, reason: Reason, message: Message, now: Clock)
    requires var outcome := Validated(ReferencesInvalid(reason, message));
             Target(runtime, a, outcome, now) == Target(runtime, b, outcome, now)
    ensures SameReport(runtime, a, b)
  {
    var outcome := Validated(ReferencesInvalid(reason, message));
    var ra := Reconcile(runtime.key, runtime.generation, runtime.spec, a, outcome, now, None);
    var rb := ra.(observation := b);
    TargetOfRuntime(runtime, ra);
    TargetOfRuntime(runtime, rb);
    UpgradeIsReported(runtime.status, ra);
    UpgradeIsReported(runtime.status, rb);
    hide UpgradeReport, RuntimeImage, CurrentImage, ServiceEndpoint, NextLastSuccessful, Find, TargetOf;
    assert Target(runtime, a, outcome, now).(conditions := []) == Target(runtime, b, outcome, now).(conditions := []);
  }

  lemma TargetOfRuntime(runtime: Runtime, r: Reconcile)
    requires r.key == runtime.key && r.generation == runtime.generation && r.spec == runtime.spec
    ensures TargetOf(runtime.status, r) == Target(runtime, r.observation, r.outcome, r.now)
  {
  }

  lemma AccurateIff(runtime: Runtime, observation: Observation, outcome: Outcome)
    ensures Accurate(runtime, observation, outcome) <==> forall now :: Target(runtime, observation, outcome, now) == runtime.status
  {
    hide Target;
    forall now ensures Writes(runtime.status, ReportStep(runtime, observation, outcome, now)) <==>
                       Target(runtime, observation, outcome, now) != runtime.status {
      TargetOfRuntime(runtime, ReportStep(runtime, observation, outcome, now));
      hide TargetOf;
    }
  }

  /** An accurate report of unresolved references stays accurate exactly as long as the workload
      leads to the same report. */
  lemma StaysAccurateIff(runtime: Runtime, a: Observation, b: Observation, outcome: Outcome, now: Clock)
    requires outcome.Validated? && outcome != VALID && Accurate(runtime, a, outcome)
    ensures Accurate(runtime, b, outcome) <==> SameReport(runtime, a, b)
  {
    hide SameReport, Target, Accurate;
    AccurateIff(runtime, a, outcome);
    AccurateIff(runtime, b, outcome);
    var reason, message := outcome.validation.reason, outcome.validation.message;
    if SameReport(runtime, a, b) {
      forall later ensures Target(runtime, b, outcome, later) == runtime.status {
        SameReportSameTarget(runtime, a, b, reason, message, later);
      }
    }
    if Accurate(runtime, b, outcome) {
      assert Target(runtime, a, outcome, now) == Target(runtime, b, outcome, now);
      SameTargetSameReport(runtime, a, b, reason, message, now);
    }
  }

  /** A change of the managed objects leaves an idle runtime with unresolved references, whose report
      was accurate, idle with a report that is not exactly when the change concerns no object it
      controls and leads to another report. */
  lemma UnnoticedChangeIff(s: State, key: Key, after: Managed, now: Clock)
    requires Idle(s, key) && s.objects[key].runtime.key == key
    requires var runtime := s.objects[key].runtime;
             CheckNow(runtime, s.secrets).Validated? && CheckNow(runtime, s.secrets) != VALID
             && Accurate(runtime, Observe(ManagedOf(s, key)), CheckNow(runtime, s.secrets))
    ensures var t, runtime := Next(s, ChangeManaged(key, after)), s.objects[key].runtime;
            Idle(t, key) && !Accurate(t.objects[key].runtime, Observe(ManagedOf(t, key)), CheckNow(runtime, t.secrets)) <==>
            && !(exists kind :: ConcernsAt(kind, ManagedOf(s, key), after, key))
            && !SameReport(runtime, Observe(ManagedOf(s, key)), Observe(after))
  {
    hide WokenBy, ConcernsAt, SameReport, Accurate, CheckNow, Observe;
    WokenIff(ManagedOf(s, key), after, key);
    StaysAccurateIff(s.objects[key].runtime, Observe(ManagedOf(s, key)), Observe(after), CheckNow(s.objects[key].runtime, s.secrets), now);
  }

  /** A Deployment without a controller, and nothing else. */
  function Stray(deployment: Deployment): Managed {
    NO_RESOURCES.(deployment := Some(Resource(map[], None, "", deployment)))
  }

  lemma StrayWakesNobody(before: Managed, deployment: Deployment, namespace: string)
    requires before == NO_RESOURCES || exists d :: before == Stray(d)
    ensures WokenBy(before, Stray(deployment), namespace) == {}
  {
  }

  /** A new runtime, its Secret missing, and a stray Deployment of its name. */
  function Waiting(key: Key, uid: string, spec: Spec, deployment: Deployment): State {
    State(map[key := Object(Runtime(key, uid, 1, false, spec, EMPTY_STATUS), 0)], {}, map[key := Stray(deployment)], {key}, map[], 1)
  }

  lemma WaitingIsReachable(key: Key, uid: string, spec: Spec, deployment: Deployment)
    ensures Reachable(Waiting(key, uid, spec, deployment))
  {
    hide Reachable, WokenBy;
    StartIsReachable();
    StrayWakesNobody(NO_RESOURCES, deployment, key.namespace);
    var first := Next(START, ChangeManaged(key, Stray(deployment)));
    assert first == State(map[], {}, map[key := Stray(deployment)], {}, map[], 0);
    NextIsReachable(START, ChangeManaged(key, Stray(deployment)));
    assert Next(first, CreateRuntime(key, uid, spec)) == Waiting(key, uid, spec, deployment);
    NextIsReachable(first, CreateRuntime(key, uid, spec));
  }

  /** Reconciling it leaves it idle, reporting the stray Deployment's replicas. */
  lemma WaitingIsReported(key: Key, uid: string, spec: Spec, name: string, deployment: Deployment, now: Clock) returns (s: State)
    requires ReferencedNames(spec) == {name} && RuntimeImage(spec.image) != ""
    ensures Reachable(s) && Idle(s, key) && s.managed == map[key := Stray(deployment)] && s.objects[key].runtime.key == key
    ensures s.objects[key].runtime.status.readyReplicas == deployment.status.readyReplicas
  {
    hide ReferencedNames, RuntimeImage, Undisturbed, Reachable, ReconcileEffect, WokenBy, CheckReferences, WellFormed, VerdictOf, Step, Obstructed;
    var waiting := Waiting(key, uid, spec, deployment);
    var cluster := ClusterOf(waiting);
    WaitingIsReachable(key, uid, spec, deployment);
    NextIsReachable(waiting, Dequeue(key, false));
    UndisturbedIsReachable(Next(waiting, Dequeue(key, false)), key, NO_FAULTS, now);
    s := Undisturbed(Next(waiting, Dequeue(key, false)), key, NO_FAULTS, now);
    WorkerRefinesReconcile(waiting, key, NO_FAULTS, now);
    WaitingEffect(cluster, key, uid, spec, name, deployment, now);
    NothingChanges(Stray(deployment), key.namespace);
    ClusterHolds(s, key);
  }

  lemma WaitingEffect(cluster: Cluster, key: Key, uid: string, spec: Spec, name: string, deployment: Deployment, now: Clock)
    requires ReferencedNames(spec) == {name} && RuntimeImage(spec.image) != ""
    requires cluster == Cluster(map[key := Runtime(key, uid, 1, false, spec, EMPTY_STATUS)], {}, map[key := Stray(deployment)])
    ensures var effect := ReconcileEffect(cluster, key, NO_FAULTS, now);
            && effect.error.None? && effect.cluster.managed == cluster.managed && key in effect.cluster.runtimes
            && effect.cluster.runtimes[key].key == key && !effect.cluster.runtimes[key].deleting
            && effect.cluster.runtimes[key].status.readyReplicas == deployment.status.readyReplicas
  {
    hide ReferencedNames, RuntimeImage, CheckReferences, TargetOf, StepEvents, CoreErrorText;
    var runtime := cluster.runtimes[key];
    ValidationReportsFirst(spec, key.namespace, {}, map[], name);
    VerdictManages(runtime, Stray(deployment), {}, NO_FAULTS);
    FaultFreeErrorIff(cluster, key, now);
    VerdictObserves(runtime, Stray(deployment), {}, NO_FAULTS);
    VerdictFailsIff(runtime, Stray(deployment), {}, NO_FAULTS);
    NoLookupFails(SecretNames(spec), key.namespace, {});
    var step := StatusStep(runtime, VerdictOf(runtime, Stray(deployment), {}, NO_FAULTS), NO_FAULTS, now);
    ChangeIsWritten(EMPTY_STATUS, step);
    WrittenReplicas(EMPTY_STATUS, step, deployment);
    hide Step, VerdictOf;
  }

  lemma WrittenReplicas(stored: Status, step: Reconcile, deployment: Deployment)
    requires Writes(stored, step) && step.observation.deployment == Some(deployment)
    ensures Step(stored, step).readyReplicas == deployment.status.readyReplicas
  {
    TargetFields(RuntimeAt(stored, step), step.observation, step.outcome, step.now);
    hide Target;
  }

  /** The assumption about control is needed: while its references do not resolve, a runtime reports
      a stray Deployment of its name, and a change of that Deployment wakes nobody. Such a runtime
      can end up idle with a report that is out of date. */
  lemma StrayWorkloadGoesUnnoticed(key: Key, uid: string, spec: Spec, name: string, deployment: Deployment, changed: Deployment, now: Clock)
    returns (s: State)
    requires ReferencedNames(spec) == {name} && RuntimeImage(spec.image) != ""
    requires changed.status.readyReplicas != deployment.status.readyReplicas
    ensures Reachable(s) && Idle(s, key) && ManagedOf(s, key) == Stray(changed)
    ensures !Accurate(s.objects[key].runtime, Observe(ManagedOf(s, key)), CheckNow(s.objects[key].runtime, s.secrets))
  {
    hide ReferencedNames, RuntimeImage, Reachable, WokenBy, CheckNow;
    var before := WaitingIsReported(key, uid, spec, name, deployment, now);
    StrayWakesNobody(Stray(deployment), changed, key.namespace);
    s := Next(before, ChangeManaged(key, Stray(changed)));
    NextIsReachable(before, ChangeManaged(key, Stray(changed)));
    var runtime := s.objects[key].runtime;
    var step := ReportStep(runtime, Observe(Stray(changed)), CheckNow(runtime, s.secrets), now);
    OtherReplicasAreWritten(runtime.status, step, changed);
    hide Writes;
  }

  lemma OtherReplicasAreWritten(stored: Status, step: Reconcile, deployment: Deployment)
    requires step.observation.deployment == Some(deployment) && step.writeError.None?
    requires stored.readyReplicas != deployment.status.readyReplicas
    ensures Writes(stored, step)
  {
    TargetFields(RuntimeAt(stored, step), step.observation, step.outcome, step.now);
    hide Target;
  }
}
