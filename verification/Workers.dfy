/** A worker left alone does what Reconcile does: the call-by-call machine of the work queue refines
    the reconcile on the store. */
module Workers {
  import opened Wrappers
  import opened RuntimeApi
  import opened RuntimeStatus
  import opened StatusRuns
  import opened EventTraces
  import opened SecretReferences
  import opened ManagedResources
  import opened Reconciler
  import opened Quiescence
  import opened WatchQueue

  /** How the faults of a reconcile hit the next call of a worker. */
  function NextError(worker: Worker, faults: Faults): Option<string> {
    match worker
    case Validating(read, checked) =>
      var names := SecretNames(read.runtime.spec);
      if checked < |names| && names[checked] in faults.secrets then Some(faults.secrets[names[checked]]) else None
    case Reconciling(_, done) =>
      if done < |ORDER| && ORDER[done] in faults.core then Some(faults.core[ORDER[done]]) else None
    case Observing(_, _, deployment) => if deployment.None? then faults.observe else None
    case Recovering(_, _) => faults.observeAfterFailure
    case Reporting(_, _, _) => None
  }

  /** More calls than the worker still has to make. */
  function CallsLeft(worker: Worker): nat {
    match worker
    case Validating(read, checked) =>
      var names := SecretNames(read.runtime.spec);
      |ORDER| + 7 + if checked < |names| then |names| - checked else 0
    case Reconciling(_, done) => 6 + if done < |ORDER| then |ORDER| - done else 0
    case Observing(_, _, deployment) => if deployment.None? then 5 else 4
    case Recovering(_, _) => 3
    case Reporting(_, _, _) => 2
  }

  lemma AdvanceGetsCloser(worker: Worker, m: Managed, secrets: set<Key>, error: Option<string>)
    requires !worker.Reporting?
    ensures CallsLeft(Advance(worker, m, secrets, error).worker) < CallsLeft(worker)
  {
    hide StepResult, CoreErrorText, Observe, SecretNames;
  }

  /** The key's reconcile in flight, if there is one, runs to its end with nothing happening in
      between. */
  function Undisturbed(s: State, key: Key, faults: Faults, now: Clock): State
    decreases if key in s.workers then CallsLeft(s.workers[key]) else 0
  {
    if key !in s.workers then s
    else if s.workers[key].Reporting? then Next(s, Finish(key, now, faults.write))
    else
      var error := NextError(s.workers[key], faults);
      AdvanceGetsCloser(s.workers[key], ManagedOf(s, key), s.secrets, error);
      Undisturbed(Next(s, Proceed(key, error)), key, faults, now)
  }

  /** The rest of the pass over the managed kinds. */
  function CoreFrom(kinds: seq<Kind>, runtime: Runtime, m: Managed, faults: Faults): Verdict {
    var core := ReconcileKinds(kinds, m, runtime, faults.core);
    Concluding(core.managed, if core.error.Some? then Failed(CoreErrorText(core.error.value)) else Validated(ReferencesValid), faults)
  }

  /** What is left of the reconcile's verdict. */
  function VerdictFrom(worker: Worker, m: Managed, secrets: set<Key>, faults: Faults): Verdict {
    match worker
    case Validating(read, checked) =>
      var names, namespace := SecretNames(read.runtime.spec), read.runtime.key.namespace;
      var check := CheckSecrets(if checked <= |names| then names[checked..] else [], namespace, secrets, faults.secrets);
      if check == AllFound then CoreFrom(ORDER, read.runtime, m, faults)
      else Concluding(m, OutcomeOf(check, namespace), faults)
    case Reconciling(read, done) => CoreFrom(if done <= |ORDER| then ORDER[done..] else [], read.runtime, m, faults)
    case Observing(_, outcome, deployment) =>
      if deployment.None? then Concluding(m, outcome, faults)
      else Verdict(m, outcome, Observation(deployment.value, Body(m.service)))
    case Recovering(_, error) => Reconciler.Failing(m, error, faults)
    case Reporting(_, outcome, observation) => Verdict(m, outcome, observation)
  }

  lemma LookupKeepsVerdict(read: Object, checked: nat, m: Managed, secrets: set<Key>, faults: Faults)
    ensures var worker := Validating(read, checked);
            var next := LookedUp(read, checked, secrets, NextError(worker, faults));
            Sound(next) && VerdictFrom(next, m, secrets, faults) == VerdictFrom(worker, m, secrets, faults)
  {
    hide CoreFrom, SecretNames, Observe;
    var names := SecretNames(read.runtime.spec);
    if checked < |names| {
      var rest := names[checked..];
      assert rest[0] == names[checked] && rest[1..] == names[checked + 1..];
    } else {
      assert ORDER[0..] == ORDER;
    }
  }

  lemma StepKeepsVerdict(read: Object, done: nat, m: Managed, secrets: set<Key>, faults: Faults)
    ensures var worker := Reconciling(read, done);
            var next := SteppedOn(read, done, m, NextError(worker, faults));
            Sound(next.worker) && VerdictFrom(next.worker, next.managed, secrets, faults) == VerdictFrom(worker, m, secrets, faults)
  {
    hide Apply, CoreErrorText, Observe;
    if done < |ORDER| {
      var rest := ORDER[done..];
      assert rest[0] == ORDER[done] && rest[1..] == ORDER[done + 1..];
    }
  }

  /** No call changes where the undisturbed reconcile is heading. */
  lemma AdvanceKeepsVerdict(worker: Worker, m: Managed, secrets: set<Key>, faults: Faults)
    requires !worker.Reporting? && Sound(worker)
    ensures var next := Advance(worker, m, secrets, NextError(worker, faults));
            && Sound(next.worker)
            && VerdictFrom(next.worker, next.managed, secrets, faults) == VerdictFrom(worker, m, secrets, faults)
  {
    hide CoreFrom, SecretNames, CoreErrorText, ReconcileKinds, StepResult;
    if worker.Validating? { LookupKeepsVerdict(worker.read, worker.checked, m, secrets, faults); }
    if worker.Reconciling? { StepKeepsVerdict(worker.read, worker.done, m, secrets, faults); }
  }

  /******* The way of an undisturbed worker *******/

  lemma WokenOnce<T>(a: Option<Resource<T>>, b: Option<Resource<T>>, c: Option<Resource<T>>, namespace: string)
    ensures a == b || b == c ==> Woken(a, c, namespace) == Woken(a, b, namespace) + Woken(b, c, namespace)
  {
  }

  /** Each kind changes at most once on the way, so the watches fire as for the whole change. */
  lemma WokenSplit(a: Managed, b: Managed, c: Managed, namespace: string)
    requires forall kind :: Agree(kind, a, b) || Agree(kind, b, c)
    ensures WokenBy(a, c, namespace) == WokenBy(a, b, namespace) + WokenBy(b, c, namespace)
  {
    WokenOnce(a.configMap, b.configMap, c.configMap, namespace);
    WokenOnce(a.serviceAccount, b.serviceAccount, c.serviceAccount, namespace);
    WokenOnce(a.service, b.service, c.service, namespace);
    WokenOnce(a.deployment, b.deployment, c.deployment, namespace);
    WokenOnce(a.budget, b.budget, c.budget, namespace);
    WokenOnce(a.policy, b.policy, c.policy, namespace);
    WokenOnce(a.autoscaler, b.autoscaler, c.autoscaler, namespace);
    hide Woken, ControllerKey;
    assert Agree(ConfigMaps, a, b) || Agree(ConfigMaps, b, c);
    assert Agree(ServiceAccounts, a, b) || Agree(ServiceAccounts, b, c);
    assert Agree(Services, a, b) || Agree(Services, b, c);
    assert Agree(Deployments, a, b) || Agree(Deployments, b, c);
    assert Agree(Budgets, a, b) || Agree(Budgets, b, c);
    assert Agree(Policies, a, b) || Agree(Policies, b, c);
    assert Agree(Autoscalers, a, b) || Agree(Autoscalers, b, c);
  }

  lemma AllAgree(m: Managed)
    ensures forall kind :: Agree(kind, m, m)
  {
  }

  lemma CoreFromManages(kinds: seq<Kind>, runtime: Runtime, m: Managed, faults: Faults)
    ensures CoreFrom(kinds, runtime, m, faults).managed == ReconcileKinds(kinds, m, runtime, faults.core).managed
  {
    hide ReconcileKinds, CoreErrorText, Observe;
  }

  /** What a step of the pass changes, the rest of the pass leaves alone. */
  lemma StepChangesOnce(read: Object, done: nat, m: Managed, faults: Faults)
    ensures var worker := Reconciling(read, done);
            var next := SteppedOn(read, done, m, NextError(worker, faults));
            forall secrets, kind :: Agree(kind, m, next.managed) || Agree(kind, next.managed, VerdictFrom(next.worker, next.managed, secrets, faults).managed)
  {
    hide Apply, Agree, CoreErrorText, Conforms, KeepsUnmanaged, Conflict, Observe, ReconcileKinds;
    AllAgree(m);
    if done < |ORDER| {
      var worker := Reconciling(read, done);
      var next := SteppedOn(read, done, m, NextError(worker, faults));
      if next.worker.Reconciling? {
        var rest := ORDER[done + 1..];
        ApplyStep(ORDER[done], m, read.runtime);
        CoreFromManages(rest, read.runtime, next.managed, faults);
        ReconcileFrame(rest, next.managed, read.runtime, faults.core);
        OrderHasNoRepeats();
        assert ORDER[done] !in rest;
      }
    }
  }

  lemma AdvanceChangesOnce(worker: Worker, m: Managed, secrets: set<Key>, faults: Faults)
    requires !worker.Reporting?
    ensures var next := Advance(worker, m, secrets, NextError(worker, faults));
            forall kind :: Agree(kind, m, next.managed) || Agree(kind, next.managed, VerdictFrom(next.worker, next.managed, secrets, faults).managed)
  {
    hide Agree, VerdictFrom, SteppedOn, LookedUp;
    AllAgree(m);
    if worker.Reconciling? { StepChangesOnce(worker.read, worker.done, m, faults); }
  }

  /** The state in which the worker reports this verdict. */
  function Arrived(s: State, key: Key, verdict: Verdict): (t: State)
    requires key in s.workers
    ensures key in t.workers && t.workers[key].Reporting?
  {
    PutManaged(s, key, verdict.managed).(
      workers := s.workers[key := Reporting(s.workers[key].read, verdict.outcome, verdict.observation)])
  }

  /** The state after that report. */
  function AfterReport(s: State, key: Key, verdict: Verdict, now: Clock, writeError: Option<string>): State
    requires key in s.workers
  {
    var worker := Reporting(s.workers[key].read, verdict.outcome, verdict.observation);
    Finished(Arrived(s, key, verdict), key, FinalStep(s, worker, now, writeError))
  }

  lemma ProceedKeepsCourse(s: State, key: Key, faults: Faults)
    requires key in s.workers && !s.workers[key].Reporting? && Sound(s.workers[key])
    ensures var t := Next(s, Proceed(key, NextError(s.workers[key], faults)));
            var verdict := VerdictFrom(s.workers[key], ManagedOf(s, key), s.secrets, faults);
            && key in t.workers && Sound(t.workers[key])
            && VerdictFrom(t.workers[key], ManagedOf(t, key), t.secrets, faults) == verdict
            && Arrived(t, key, verdict) == Arrived(s, key, verdict)
            && t.workers[key].read == s.workers[key].read && t.objects == s.objects
  {
    hide VerdictFrom, Advance, WokenBy, Agree;
    var worker, m := s.workers[key], ManagedOf(s, key);
    var error := NextError(worker, faults);
    var next, verdict := Advance(worker, m, s.secrets, error), VerdictFrom(worker, m, s.secrets, faults);
    AdvanceFrame(worker, m, s.secrets, error);
    AdvanceKeepsVerdict(worker, m, s.secrets, faults);
    AdvanceChangesOnce(worker, m, s.secrets, faults);
    WokenSplit(m, next.managed, verdict.managed, key.namespace);
    var t := Next(s, Proceed(key, error));
    assert t.managed[key := verdict.managed] == s.managed[key := verdict.managed];
    assert t.workers[key := Reporting(worker.read, verdict.outcome, verdict.observation)]
        == s.workers[key := Reporting(worker.read, verdict.outcome, verdict.observation)];
    assert Arrived(t, key, verdict).queue == Arrived(s, key, verdict).queue;
  }

  lemma ReportingHasArrived(s: State, key: Key, faults: Faults)
    requires key in s.workers && s.workers[key].Reporting? && key in s.managed
    ensures var verdict := VerdictFrom(s.workers[key], ManagedOf(s, key), s.secrets, faults);
            && Arrived(s, key, verdict) == s
            && s.workers[key] == Reporting(s.workers[key].read, verdict.outcome, verdict.observation)
  {
    NothingChanges(ManagedOf(s, key), key.namespace);
    hide WokenBy;
  }

  lemma NothingChanges(m: Managed, namespace: string)
    ensures WokenBy(m, m, namespace) == {}
  {
  }

  /** An undisturbed worker arrives at its verdict and reports it. */
  lemma {:induction false} UndisturbedReports(s: State, key: Key, faults: Faults, now: Clock)
    requires key in s.workers && key in s.managed && Sound(s.workers[key])
    ensures Undisturbed(s, key, faults, now) ==
            AfterReport(s, key, VerdictFrom(s.workers[key], ManagedOf(s, key), s.secrets, faults), now, faults.write)
    decreases CallsLeft(s.workers[key])
  {
    hide VerdictFrom, Arrived, Advance, CallsLeft, Finished, FinalStep;
    var worker := s.workers[key];
    if worker.Reporting? {
      ReportingHasArrived(s, key, faults);
    } else {
      hide Next;
      var error := NextError(worker, faults);
      var t := Next(s, Proceed(key, error));
      ProceedKeepsCourse(s, key, faults);
      ProceedStays(s, key, error);
      SameFinalStep(s, t, key, now, faults.write);
      UndisturbedReports(t, key, faults, now);
    }
  }

  lemma SameFinalStep(s: State, t: State, key: Key, now: Clock, writeError: Option<string>)
    requires s.objects == t.objects
    ensures forall worker: Worker :: worker.Reporting? ==> FinalStep(s, worker, now, writeError) == FinalStep(t, worker, now, writeError)
  {
  }

  lemma ProceedStays(s: State, key: Key, error: Option<string>)
    requires key in s.workers && !s.workers[key].Reporting?
    ensures var t := Next(s, Proceed(key, error));
            key in t.managed && key in t.workers && CallsLeft(t.workers[key]) < CallsLeft(s.workers[key])
  {
    hide Advance, WokenBy, CallsLeft;
    AdvanceGetsCloser(s.workers[key], ManagedOf(s, key), s.secrets, error);
  }

  /******* Refinement *******/

  function ClusterOf(s: State): Cluster {
    Cluster(Runtimes(s), s.secrets, s.managed)
  }

  lemma ClusterHolds(s: State, key: Key)
    requires key in ClusterOf(s).runtimes
    ensures key in s.objects && s.objects[key].runtime == ClusterOf(s).runtimes[key]
  {
  }

  lemma NewWorkerVerdict(read: Object, m: Managed, secrets: set<Key>, faults: Faults)
    ensures VerdictFrom(Validating(read, 0), m, secrets, faults) == VerdictOf(read.runtime, m, secrets, faults)
  {
    hide CheckSecrets, CoreErrorText, SecretNames, Observe;
    var names := SecretNames(read.runtime.spec);
    assert names[0..] == names;
  }

  lemma ArrivedCluster(s: State, key: Key, verdict: Verdict)
    requires key in s.workers
    ensures ClusterOf(Arrived(s, key, verdict)) == WithManaged(ClusterOf(s), key, verdict.managed)
    ensures Arrived(s, key, verdict).queue == s.queue + WokenBy(ManagedOf(s, key), verdict.managed, key.namespace)
    ensures Arrived(s, key, verdict).objects == s.objects && Arrived(s, key, verdict).workers - {key} == s.workers - {key}
  {
    hide WokenBy, ManagedOf;
  }

  lemma FinishedCluster(s: State, key: Key, step: Reconcile)
    requires key in s.workers && key in s.objects && s.objects[key] == s.workers[key].read && s.objects[key].runtime.key == key
    requires Writes(s.objects[key].runtime.status, step) || Step(s.objects[key].runtime.status, step) == s.objects[key].runtime.status
    ensures var runtime, t := s.objects[key].runtime, Finished(s, key, step);
            && ClusterOf(t) == WithStatus(ClusterOf(s), runtime, Step(runtime.status, step))
            && t.queue == s.queue + (if StepError(runtime.status, step).Some? then {key} else {})
            && t.workers == s.workers - {key}
  {
    hide Step, Writes, StepError;
    var runtime, t := s.objects[key].runtime, Finished(s, key, step);
    assert Runtimes(t) == Runtimes(s)[key := runtime.(status := Step(runtime.status, step))];
  }

  /** The store after a worker has reported, seen as a cluster. */
  lemma ReportedCluster(s: State, key: Key, verdict: Verdict, now: Clock, writeError: Option<string>)
    requires key in s.workers && key in s.objects && s.objects[key] == s.workers[key].read && s.objects[key].runtime.key == key
    ensures var runtime := s.objects[key].runtime;
            var step := Reconcile(key, runtime.generation, runtime.spec, verdict.observation, verdict.outcome, now, writeError);
            var t := AfterReport(s, key, verdict, now, writeError);
            && ClusterOf(t) == WithStatus(WithManaged(ClusterOf(s), key, verdict.managed), runtime, Step(runtime.status, step))
            && t.queue == s.queue + WokenBy(ManagedOf(s, key), verdict.managed, key.namespace)
                        + (if StepError(runtime.status, step).Some? then {key} else {})
            && t.workers == s.workers - {key}
  {
    hide Step, Writes, StepError, WokenBy, ManagedOf, Finished, ClusterOf, WithStatus, WithManaged;
    var runtime := s.objects[key].runtime;
    var step := Reconcile(key, runtime.generation, runtime.spec, verdict.observation, verdict.outcome, now, writeError);
    if !Writes(runtime.status, step) { SilentWithoutWriteStep(runtime.status, step); }
    ArrivedCluster(s, key, verdict);
    FinishedCluster(Arrived(s, key, verdict), key, step);
  }

  /** From taking a live runtime off the queue to its report, a worker that nobody disturbs does to
      the store exactly what the reconcile does, and queues the runtime again exactly when the
      reconcile returns an error or a watch on what it changed asks for it. */
  lemma WorkerRefinesReconcile(s: State, key: Key, faults: Faults, now: Clock)
    requires key in s.queue && key !in s.workers && faults.get.None?
    requires key in s.objects && !s.objects[key].runtime.deleting && s.objects[key].runtime.key == key && key in s.managed
    ensures var t := Undisturbed(Next(s, Dequeue(key, false)), key, faults, now);
            var effect := ReconcileEffect(ClusterOf(s), key, faults, now);
            && ClusterOf(t) == effect.cluster
            && t.queue == s.queue - {key} + WokenBy(ManagedOf(s, key), ManagedAt(effect.cluster, key), key.namespace)
                        + (if effect.error.Some? then {key} else {})
            && t.workers == s.workers
  {
    hide VerdictFrom, VerdictOf, AfterReport, Undisturbed, Step, StepError, StepEvents, WokenBy;
    var d := Next(s, Dequeue(key, false));
    var read, m := s.objects[key], s.managed[key];
    NewWorkerVerdict(read, m, s.secrets, faults);
    var verdict := VerdictOf(read.runtime, m, s.secrets, faults);
    UndisturbedReports(d, key, faults, now);
    ReportedCluster(d, key, verdict, now, faults.write);
  }

  /** Without faults, that is one pass of the quiescent queue. */
  lemma WorkerRefinesPass(s: State, key: Key, now: Clock)
    requires key in s.queue && key !in s.workers
    requires key in s.objects && !s.objects[key].runtime.deleting && s.objects[key].runtime.key == key && key in s.managed
    ensures var t := Undisturbed(Next(s, Dequeue(key, false)), key, NO_FAULTS, now);
            Work(ClusterOf(t), t.queue) == Pass(Work(ClusterOf(s), s.queue), key, now)
  {
    hide Undisturbed, ReconcileEffect, WokenBy;
    WorkerRefinesReconcile(s, key, NO_FAULTS, now);
  }

  /******* Reachable states *******/

  /** Some run of the protocol, all of whose Lists succeed, leads here. */
  ghost predicate Reachable(s: State) {
    exists actions :: Possible(START, actions) && AllListed(actions) && After(START, actions) == s
  }

  lemma {:induction false} RunExtends(s: State, actions: seq<Action>, action: Action)
    requires Possible(s, actions) && Enabled(After(s, actions), action)
    ensures Possible(s, actions + [action]) && After(s, actions + [action]) == Next(After(s, actions), action)
    decreases |actions|
  {
    hide Enabled, Next;
    if actions == [] {
      assert [] + [action] == [action] && [action][1..] == [];
      assert Possible(Next(s, action), []);
    } else {
      assert (actions + [action])[1..] == actions[1..] + [action];
      RunExtends(Next(s, actions[0]), actions[1..], action);
    }
  }

  lemma StartIsReachable()
    ensures Reachable(START)
  {
    assert Possible(START, []) && AllListed([]) && After(START, []) == START;
  }

  lemma NextIsReachable(s: State, action: Action)
    requires Reachable(s) && Enabled(s, action) && (action.AddSecret? || action.RemoveSecret? ==> action.listed)
    ensures Reachable(Next(s, action))
  {
    hide Possible, After, Enabled, Next;
    var actions :| Possible(START, actions) && AllListed(actions) && After(START, actions) == s;
    RunExtends(START, actions, action);
    assert AllListed(actions + [action]);
  }

  lemma {:induction false} UndisturbedIsReachable(s: State, key: Key, faults: Faults, now: Clock)
    requires Reachable(s)
    ensures Reachable(Undisturbed(s, key, faults, now))
    decreases if key in s.workers then CallsLeft(s.workers[key]) else 0
  {
    hide Reachable, Next, Advance, CallsLeft;
    if key !in s.workers {
    } else if s.workers[key].Reporting? {
      NextIsReachable(s, Finish(key, now, faults.write));
    } else {
      var error := NextError(s.workers[key], faults);
      ProceedStays(s, key, error);
      NextIsReachable(s, Proceed(key, error));
      UndisturbedIsReachable(Next(s, Proceed(key, error)), key, faults, now);
    }
  }

  lemma ReachableLosesNothing(s: State)
    requires Reachable(s)
    ensures NothingLost(s)
  {
    hide Possible, After, NothingLost;
    var actions :| Possible(START, actions) && AllListed(actions) && After(START, actions) == s;
    StartLosesNothing();
    InvariantOfRuns(START, actions);
  }

  lemma StartLosesNothing()
    ensures NothingLost(START)
  {
  }
}
