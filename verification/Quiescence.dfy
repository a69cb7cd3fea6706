/** Quiescence of the work queue: with no outside changes and no API errors, what every order of
    handing out queued runtimes leads to. */
module Quiescence {
  import opened Wrappers
  import opened RuntimeApi
  import opened RuntimeResources
  import opened RuntimeStatus
  import opened StatusRuns
  import opened RuntimeEvents
  import opened SecretReferences
  import opened ManagedResources
  import opened Reconciler

  /** Further reconciles of this runtime change nothing and succeed. */
  ghost predicate Quiet(cluster: Cluster, key: Key) {
    SettledAt(cluster, key) && !Obstructed(cluster, key)
  }

  lemma OthersUnaffected(cluster: Cluster, key: Key, other: Key, now: Clock)
    requires WellFormed(cluster) && other != key
    ensures var after := ReconcileEffect(cluster, key, NO_FAULTS, now).cluster;
            && SettledAt(after, other) == SettledAt(cluster, other)
            && Obstructed(after, other) == Obstructed(cluster, other)
  {
    EffectFrame(cluster, key, now);
    hide ReconcileEffect, Settled, CheckReferences, Conflict;
  }

  /******* Passes *******/

  datatype Work = Work(cluster: Cluster, queue: set<Key>)

  /** One reconcile of a queued runtime; an error requeues it, and changes to owned objects wake
      their controllers. */
  function Pass(w: Work, key: Key, now: Clock): Work {
    var effect := ReconcileEffect(w.cluster, key, NO_FAULTS, now);
    Work(effect.cluster,
         w.queue - {key}
         + WokenBy(ManagedAt(w.cluster, key), ManagedAt(effect.cluster, key), key.namespace)
         + if effect.error.Some? then {key} else {})
  }

  function AfterPasses(w: Work, keys: seq<Key>, clock: nat -> Clock): Work {
    if keys == [] then w
    else
      var n := |keys| - 1;
      Pass(AfterPasses(w, keys[..n], clock), keys[n], clock(n))
  }

  function PassEvents(w: Work, keys: seq<Key>, clock: nat -> Clock): seq<Event> {
    if keys == [] then []
    else
      var n := |keys| - 1;
      PassEvents(w, keys[..n], clock)
      + ReconcileEffect(AfterPasses(w, keys[..n], clock).cluster, keys[n], NO_FAULTS, clock(n)).events
  }

  /** The queue hands out only what it holds. */
  ghost predicate Schedule(w: Work, keys: seq<Key>, clock: nat -> Clock) {
    keys == [] ||
      var n := |keys| - 1;
      Schedule(w, keys[..n], clock) && keys[n] in AfterPasses(w, keys[..n], clock).queue
  }

  /******* What every sequence of passes keeps *******/

  /** Only the statuses and the managed objects of these runtimes differ. */
  ghost predicate DiffersAt(before: Cluster, after: Cluster, keys: seq<Key>) {
    && after.secrets == before.secrets
    && after.runtimes.Keys == before.runtimes.Keys
    && (forall key :: key in after.runtimes ==> after.runtimes[key] == before.runtimes[key].(status := after.runtimes[key].status))
    && (forall key :: key in after.runtimes && key !in keys ==> after.runtimes[key] == before.runtimes[key])
    && (forall key :: key !in keys ==> ManagedAt(after, key) == ManagedAt(before, key))
  }

  lemma DiffersNowhere(cluster: Cluster)
    ensures DiffersAt(cluster, cluster, [])
  {
  }

  lemma DiffersConcat(a: Cluster, b: Cluster, c: Cluster, keys: seq<Key>, key: Key)
    requires DiffersAt(a, b, keys) && DiffersAt(b, c, [key])
    ensures DiffersAt(a, c, keys + [key])
  {
    hide ManagedAt;
    forall k | k in c.runtimes ensures c.runtimes[k] == a.runtimes[k].(status := c.runtimes[k].status) {
      assert b.runtimes[k] == a.runtimes[k].(status := b.runtimes[k].status);
    }
  }

  lemma PassDiffers(cluster: Cluster, key: Key, now: Clock)
    requires WellFormed(cluster)
    ensures WellFormed(ReconcileEffect(cluster, key, NO_FAULTS, now).cluster)
    ensures DiffersAt(cluster, ReconcileEffect(cluster, key, NO_FAULTS, now).cluster, [key])
  {
    hide WellFormed, ReconcileEffect, VerdictOf, Step, ManagedAt;
    EffectFrame(cluster, key, now);
    EffectKeepsWellFormed(cluster, key, now);
  }

  /** Passes touch statuses and managed objects of the runtimes they are for, and nothing else:
      specs and Secrets stay. */
  lemma {:induction false} PassesFrame(w: Work, keys: seq<Key>, clock: nat -> Clock)
    requires WellFormed(w.cluster)
    ensures WellFormed(AfterPasses(w, keys, clock).cluster)
    ensures DiffersAt(w.cluster, AfterPasses(w, keys, clock).cluster, keys)
  {
    hide WellFormed, ReconcileEffect, WokenBy, DiffersAt;
    if keys == [] {
      DiffersNowhere(w.cluster);
    } else {
      var n := |keys| - 1;
      var before := AfterPasses(w, keys[..n], clock);
      PassesFrame(w, keys[..n], clock);
      PassDiffers(before.cluster, keys[n], clock(n));
      DiffersConcat(w.cluster, before.cluster, AfterPasses(w, keys, clock).cluster, keys[..n], keys[n]);
      assert keys == keys[..n] + [keys[n]];
    }
  }

  /** One reconcile is enough: whatever came after it, a reconciled runtime is at its fixpoint. */
  lemma {:induction false} ReconciledIsSettled(w: Work, keys: seq<Key>, clock: nat -> Clock, key: Key)
    requires WellFormed(w.cluster) && key in keys
    ensures SettledAt(AfterPasses(w, keys, clock).cluster, key)
  {
    hide WellFormed, ReconcileEffect, SettledAt, WokenBy;
    var n := |keys| - 1;
    var before := AfterPasses(w, keys[..n], clock).cluster;
    PassesFrame(w, keys[..n], clock);
    if keys[n] == key {
      ReconcileIsFixpoint(before, key, clock(n), clock(n));
    } else {
      assert key in keys[..n];
      ReconciledIsSettled(w, keys[..n], clock, key);
      OthersUnaffected(before, keys[n], key, clock(n));
    }
  }

  /** Only a runtime's first pass can change the store. */
  lemma RepeatedPassChangesNothing(w: Work, keys: seq<Key>, clock: nat -> Clock, j: nat)
    requires WellFormed(w.cluster) && j < |keys| && keys[j] in keys[..j]
    ensures AfterPasses(w, keys[..j + 1], clock).cluster == AfterPasses(w, keys[..j], clock).cluster
  {
    hide WellFormed, ReconcileEffect, SettledAt, WokenBy, DiffersAt;
    assert keys[..j + 1][..j] == keys[..j];
    PassesFrame(w, keys[..j], clock);
    ReconciledIsSettled(w, keys[..j], clock, keys[j]);
    SettledIsUnchanged(AfterPasses(w, keys[..j], clock).cluster, keys[j], clock(j));
  }

  /** Passes neither obstruct a runtime nor clear an obstruction. */
  lemma {:induction false} ObstructionStays(w: Work, keys: seq<Key>, clock: nat -> Clock, key: Key)
    requires WellFormed(w.cluster)
    ensures Obstructed(AfterPasses(w, keys, clock).cluster, key) == Obstructed(w.cluster, key)
  {
    hide WellFormed, ReconcileEffect, Obstructed, WokenBy, DiffersAt;
    if keys == [] {
    } else {
      var n := |keys| - 1;
      var before := AfterPasses(w, keys[..n], clock).cluster;
      ObstructionStays(w, keys[..n], clock, key);
      PassesFrame(w, keys[..n], clock);
      if keys[n] == key {
        OwnObstructionStays(before, key, clock(n));
      } else {
        OthersUnaffected(before, keys[n], key, clock(n));
      }
    }
  }

  lemma OwnObstructionStays(cluster: Cluster, key: Key, now: Clock)
    requires WellFormed(cluster)
    ensures Obstructed(ReconcileEffect(cluster, key, NO_FAULTS, now).cluster, key) == Obstructed(cluster, key)
  {
    hide WellFormed, ReconcileEffect, Obstructed, SettledAt;
    ReconcileIsFixpoint(cluster, key, now, now);
    EffectKeepsWellFormed(cluster, key, now);
    FaultFreeErrorIff(cluster, key, now);
    FaultFreeErrorIff(ReconcileEffect(cluster, key, NO_FAULTS, now).cluster, key, now);
  }

  /** A queue that holds an obstructed runtime never drains. */
  lemma {:induction false} ObstructedNeverDrains(w: Work, keys: seq<Key>, clock: nat -> Clock, key: Key)
    requires WellFormed(w.cluster) && key in w.queue && Obstructed(w.cluster, key)
    ensures key in AfterPasses(w, keys, clock).queue
  {
    hide WellFormed, ReconcileEffect, Obstructed, WokenBy, DiffersAt;
    if keys == [] {
    } else {
      var n := |keys| - 1;
      ObstructedNeverDrains(w, keys[..n], clock, key);
      PassesFrame(w, keys[..n], clock);
      ObstructionStays(w, keys[..n], clock, key);
      FaultFreeErrorIff(AfterPasses(w, keys[..n], clock).cluster, key, clock(n));
    }
  }

  /******* Wake-ups *******/

  /** The runtimes that control the disabled objects a pass deletes. */
  function Released(m: Managed, runtime: Runtime): set<Key> {
    (if PolicyEnabled(runtime.spec) then {} else ControllerKey(m.policy, runtime.key.namespace))
    + (if AutoscalingEnabled(runtime.spec) then {} else ControllerKey(m.autoscaler, runtime.key.namespace))
  }

  function Bystanders(cluster: Cluster, key: Key): set<Key> {
    if Live(cluster, key)
       && CheckReferences(cluster.runtimes[key].spec, cluster.runtimes[key].key.namespace, cluster.secrets, map[]) == AllFound
    then Released(ManagedAt(cluster, key), cluster.runtimes[key])
    else {}
  }

  lemma WokenKept<T>(before: Option<Resource<T>>, after: Option<Resource<T>>, runtime: Runtime)
    requires !Foreign(before, OwnerOf(runtime)) && Kept(after, runtime)
    ensures Woken(before, after, runtime.key.namespace) <= {runtime.key}
  {
    hide RuntimeLabels;
  }

  lemma WokenDeleted<T>(before: Option<Resource<T>>, namespace: string)
    ensures Woken(before, None, namespace) == ControllerKey(before, namespace)
  {
  }

  /** A pass that leaves conforming objects wakes, besides the runtime itself, exactly the
      controllers of what it deletes. */
  lemma WokenByPass(before: Managed, after: Managed, runtime: Runtime)
    requires forall kind :: !Conflict(kind, before, runtime) && Conforms(kind, after, runtime)
    ensures Released(before, runtime) <= WokenBy(before, after, runtime.key.namespace) <= {runtime.key} + Released(before, runtime)
  {
    hide ConfigData, RuntimeLabels, SelectorLabels, DesiredTemplate, ServiceKind, ServicePort, Kept, Woken, ControllerKey, Foreign;
    assert !Conflict(ConfigMaps, before, runtime) && Conforms(ConfigMaps, after, runtime);
    WokenKept(before.configMap, after.configMap, runtime);
    assert !Conflict(ServiceAccounts, before, runtime) && Conforms(ServiceAccounts, after, runtime);
    WokenKept(before.serviceAccount, after.serviceAccount, runtime);
    assert !Conflict(Services, before, runtime) && Conforms(Services, after, runtime);
    WokenKept(before.service, after.service, runtime);
    assert !Conflict(Deployments, before, runtime) && Conforms(Deployments, after, runtime);
    WokenKept(before.deployment, after.deployment, runtime);
    assert !Conflict(Budgets, before, runtime) && Conforms(Budgets, after, runtime);
    WokenKept(before.budget, after.budget, runtime);
    assert !Conflict(Policies, before, runtime) && Conforms(Policies, after, runtime);
    if PolicyEnabled(runtime.spec) {
      WokenKept(before.policy, after.policy, runtime);
    } else {
      WokenDeleted(before.policy, runtime.key.namespace);
    }
    assert !Conflict(Autoscalers, before, runtime) && Conforms(Autoscalers, after, runtime);
    if AutoscalingEnabled(runtime.spec) {
      WokenKept(before.autoscaler, after.autoscaler, runtime);
    } else {
      WokenDeleted(before.autoscaler, runtime.key.namespace);
    }
  }

  lemma NothingWoken(m: Managed, namespace: string)
    ensures WokenBy(m, m, namespace) == {}
  {
  }

  /** The keys a pass of this runtime puts into the queue. */
  function Wakes(cluster: Cluster, key: Key): set<Key> {
    if !Live(cluster, key) then {}
    else
      var m := ManagedAt(cluster, key);
      WokenBy(m, VerdictOf(cluster.runtimes[key], m, cluster.secrets, NO_FAULTS).managed, key.namespace)
  }

  lemma PassWakes(cluster: Cluster, key: Key, now: Clock)
    requires WellFormed(cluster)
    ensures Wakes(cluster, key) ==
            WokenBy(ManagedAt(cluster, key), ManagedAt(ReconcileEffect(cluster, key, NO_FAULTS, now).cluster, key), key.namespace)
  {
    hide WokenBy, ReconcileEffect, VerdictOf, Step, WellFormed;
    EffectFrame(cluster, key, now);
    NothingWoken(ManagedAt(cluster, key), key.namespace);
  }

  /** A pass wakes others exactly when it deletes disabled objects that they control. */
  lemma WakesBystanders(cluster: Cluster, key: Key)
    requires WellFormed(cluster) && !Obstructed(cluster, key)
    ensures Wakes(cluster, key) - {key} == Bystanders(cluster, key) - {key}
    ensures Wakes(cluster, key) <= {key} + Bystanders(cluster, key)
    ensures !Live(cluster, key) || SettledAt(cluster, key) ==> Wakes(cluster, key) == {}
  {
    hide WokenBy, Released, CheckReferences, Conflict, Conforms, VerdictOf, KeepsUnmanaged, Step, ReconcileCore;
    var m := ManagedAt(cluster, key);
    NothingWoken(m, key.namespace);
    if Live(cluster, key) {
      var runtime := cluster.runtimes[key];
      VerdictManages(runtime, m, cluster.secrets, NO_FAULTS);
      if CheckReferences(runtime.spec, runtime.key.namespace, cluster.secrets, map[]) == AllFound {
        DriftCorrection(m, runtime);
        WokenByPass(m, ReconcileCore(m, runtime, map[]).managed, runtime);
      }
    }
  }

  lemma FewBystanders(cluster: Cluster, key: Key)
    ensures |{key} + Bystanders(cluster, key)| <= 3
  {
    hide ManagedAt, CheckReferences;
    if Bystanders(cluster, key) != {} {
      var m, namespace := ManagedAt(cluster, key), cluster.runtimes[key].key.namespace;
      var a, b := ControllerKey(m.policy, namespace), ControllerKey(m.autoscaler, namespace);
      assert |a| <= 1 && |b| <= 1;
      SubsetSize({key} + Bystanders(cluster, key), {key} + a + b);
    }
  }

  lemma FewWoken(cluster: Cluster, key: Key)
    requires WellFormed(cluster) && !Obstructed(cluster, key)
    ensures |Wakes(cluster, key)| <= 3
  {
    hide WellFormed, Obstructed, Wakes, Bystanders, SettledAt;
    WakesBystanders(cluster, key);
    FewBystanders(cluster, key);
    SubsetSize(Wakes(cluster, key), {key} + Bystanders(cluster, key));
  }

  lemma PassRequeues(w: Work, key: Key, now: Clock)
    requires WellFormed(w.cluster) && !Obstructed(w.cluster, key)
    ensures Pass(w, key, now).queue == w.queue - {key} + Wakes(w.cluster, key)
  {
    hide WellFormed, ReconcileEffect, Obstructed, WokenBy, Wakes;
    FaultFreeErrorIff(w.cluster, key, now);
    PassWakes(w.cluster, key, now);
  }

  /** What the last pass of a sequence does to the queue: only a first pass wakes, and whom it
      wakes was clear from the start. */
  lemma PassQueue(w: Work, keys: seq<Key>, clock: nat -> Clock)
    requires WellFormed(w.cluster) && forall key :: !Obstructed(w.cluster, key)
    requires keys != []
    ensures var n := |keys| - 1;
            AfterPasses(w, keys, clock).queue ==
            AfterPasses(w, keys[..n], clock).queue - {keys[n]} + if keys[n] in keys[..n] then {} else Wakes(w.cluster, keys[n])
  {
    hide WellFormed, Pass, Wakes, Obstructed, SettledAt, Bystanders, DiffersAt;
    var n := |keys| - 1;
    var front, key := keys[..n], keys[n];
    var before := AfterPasses(w, front, clock);
    PassesFrame(w, front, clock);
    ObstructionStays(w, front, clock, key);
    PassRequeues(before, key, clock(n));
    if key in front {
      ReconciledIsSettled(w, front, clock, key);
      WakesBystanders(before.cluster, key);
    } else {
      SameWakes(w.cluster, before.cluster, front, key);
    }
  }

  lemma SameWakes(a: Cluster, b: Cluster, keys: seq<Key>, key: Key)
    requires DiffersAt(a, b, keys) && key !in keys
    ensures Wakes(a, key) == Wakes(b, key)
  {
    hide VerdictOf, ManagedAt, WokenBy;
  }

  lemma {:induction false} SubsetSize(a: set<Key>, b: set<Key>)
    requires a <= b
    ensures |a| <= |b|
  {
    if a == {} {
    } else {
      var key :| key in a;
      SubsetSize(a - {key}, b - {key});
    }
  }

  /******* Quiescence *******/

  function Visited(keys: seq<Key>): set<Key> {
    set key | key in keys
  }

  lemma VisitedSnoc(keys: seq<Key>)
    requires keys != []
    ensures Visited(keys) == Visited(keys[..|keys| - 1]) + {keys[|keys| - 1]}
  {
    assert keys == keys[..|keys| - 1] + [keys[|keys| - 1]];
  }

  /** Every schedule ends: there are at most three passes per runtime beyond the keys queued at
      first. */
  lemma {:induction false} SchedulesAreBounded(w: Work, keys: seq<Key>, clock: nat -> Clock)
    requires WellFormed(w.cluster) && (forall key :: !Obstructed(w.cluster, key)) && Schedule(w, keys, clock)
    ensures |keys| + |AfterPasses(w, keys, clock).queue| <= |w.queue| + 3 * |Visited(keys) * w.cluster.runtimes.Keys|
    ensures |keys| <= |w.queue| + 3 * |w.cluster.runtimes|
  {
    hide WellFormed, Obstructed, Pass, Wakes, Bystanders;
    SubsetSize(Visited(keys) * w.cluster.runtimes.Keys, w.cluster.runtimes.Keys);
    assert |w.cluster.runtimes.Keys| == |w.cluster.runtimes|;
    if keys == [] {
    } else {
      var n := |keys| - 1;
      var front, key := keys[..n], keys[n];
      SchedulesAreBounded(w, front, clock);
      PassQueue(w, keys, clock);
      VisitedSnoc(keys);
      FewWoken(w.cluster, key);
      AbsentWakesNobody(w.cluster, key);
      QueueSize(AfterPasses(w, front, clock).queue, key, if key in front then {} else Wakes(w.cluster, key));
      VisitedSize(front, key, w.cluster.runtimes.Keys);
    }
  }

  lemma AbsentWakesNobody(cluster: Cluster, key: Key)
    ensures key !in cluster.runtimes ==> Wakes(cluster, key) == {}
  {
  }

  lemma QueueSize(queue: set<Key>, key: Key, woken: set<Key>)
    requires key in queue
    ensures |queue - {key} + woken| <= |queue| - 1 + |woken|
  {
  }

  lemma VisitedSize(front: seq<Key>, key: Key, live: set<Key>)
    ensures key in front || key !in live ==> (Visited(front) + {key}) * live == Visited(front) * live
    ensures key !in front && key in live ==> |(Visited(front) + {key}) * live| == |Visited(front) * live| + 1
  {
    if key !in front && key in live {
      assert (Visited(front) + {key}) * live == Visited(front) * live + {key};
    }
  }

  /** A key leaves the queue only by being reconciled. */
  lemma {:induction false} QueuedIsReconciled(w: Work, keys: seq<Key>, clock: nat -> Clock, key: Key)
    requires key in w.queue
    ensures key in keys || key in AfterPasses(w, keys, clock).queue
  {
    hide ReconcileEffect, WokenBy, ManagedAt;
    if keys == [] {
    } else {
      var n := |keys| - 1;
      QueuedIsReconciled(w, keys[..n], clock, key);
      assert keys == keys[..n] + [keys[n]];
    }
  }

  /** Once the queue is empty, every runtime that was queued or reconciled is quiet: further
      reconciles change nothing and succeed. */
  lemma DrainedIsQuiet(w: Work, keys: seq<Key>, clock: nat -> Clock, key: Key)
    requires WellFormed(w.cluster) && (forall key :: !Obstructed(w.cluster, key))
    requires AfterPasses(w, keys, clock).queue == {} && (key in w.queue || key in keys)
    ensures Quiet(AfterPasses(w, keys, clock).cluster, key)
  {
    hide WellFormed, Obstructed, SettledAt, AfterPasses;
    if key in w.queue { QueuedIsReconciled(w, keys, clock, key); }
    ReconciledIsSettled(w, keys, clock, key);
    ObstructionStays(w, keys, clock, key);
  }

  lemma EmptySchedule(w: Work, clock: nat -> Clock)
    ensures Schedule(w, [], clock) && AfterPasses(w, [], clock) == w && PassEvents(w, [], clock) == []
  {
  }

  lemma ScheduleSnoc(w: Work, keys: seq<Key>, clock: nat -> Clock, key: Key)
    requires Schedule(w, keys, clock) && key in AfterPasses(w, keys, clock).queue
    ensures Schedule(w, keys + [key], clock)
    ensures AfterPasses(w, keys + [key], clock) == Pass(AfterPasses(w, keys, clock), key, clock(|keys|))
    ensures PassEvents(w, keys + [key], clock) ==
            PassEvents(w, keys, clock) + ReconcileEffect(AfterPasses(w, keys, clock).cluster, key, NO_FAULTS, clock(|keys|)).events
  {
    hide Pass, ReconcileEffect;
    assert (keys + [key])[..|keys|] == keys;
  }

  /** No runtime is woken by the passes of two. */
  ghost predicate OneWaker(cluster: Cluster) {
    forall key, a, b :: key in Wakes(cluster, a) && key in Wakes(cluster, b) ==> a == b
  }

  ghost predicate WokenIn(cluster: Cluster, keys: seq<Key>, key: Key) {
    exists i :: 0 <= i < |keys| && key in Wakes(cluster, keys[i])
  }

  lemma WokenInSnoc(cluster: Cluster, keys: seq<Key>, last: Key, key: Key)
    ensures WokenIn(cluster, keys + [last], key) <==> WokenIn(cluster, keys, key) || key in Wakes(cluster, last)
  {
    hide Wakes;
    var all := keys + [last];
    assert all[|keys|] == last;
    assert forall i :: 0 <= i < |keys| ==> all[i] == keys[i];
  }

  lemma {:induction false} AtMostTwice(w: Work, keys: seq<Key>, clock: nat -> Clock, key: Key)
    requires WellFormed(w.cluster) && (forall key :: !Obstructed(w.cluster, key)) && Schedule(w, keys, clock)
    requires OneWaker(w.cluster)
    ensures multiset(keys)[key] + (if key in AfterPasses(w, keys, clock).queue then 1 else 0) <=
            if WokenIn(w.cluster, keys, key) then 2 else 1
  {
    hide WellFormed, Obstructed, Pass, Wakes, WokenIn;
    if keys == [] {
    } else {
      var n := |keys| - 1;
      var front, last := keys[..n], keys[n];
      AtMostTwice(w, front, clock, key);
      PassQueue(w, keys, clock);
      assert keys == front + [last];
      assert multiset(keys) == multiset(front) + multiset{last};
      WokenInSnoc(w.cluster, front, last, key);
      if last !in front && key in Wakes(w.cluster, last) {
        NotWokenBefore(w.cluster, front, last, key);
      }
    }
  }

  lemma NotWokenBefore(cluster: Cluster, keys: seq<Key>, last: Key, key: Key)
    requires OneWaker(cluster) && last !in keys && key in Wakes(cluster, last)
    ensures !WokenIn(cluster, keys, key)
  {
    hide Wakes;
  }

  lemma ScheduleStep(w: Work, keys: seq<Key>, clock: nat -> Clock, key: Key)
    requires WellFormed(w.cluster) && (forall key :: !Obstructed(w.cluster, key))
    requires Schedule(w, keys, clock) && key in AfterPasses(w, keys, clock).queue
    ensures Schedule(w, keys + [key], clock)
    ensures AfterPasses(w, keys + [key], clock).queue ==
            AfterPasses(w, keys, clock).queue - {key} + if key in keys then {} else Wakes(w.cluster, key)
  {
    hide WellFormed, Obstructed, Pass, Wakes;
    assert (keys + [key])[..|keys|] == keys;
    PassQueue(w, keys + [key], clock);
  }

  /** Woken by itself and by another runtime, a runtime can be reconciled three times. */
  lemma ThirdPassAfterItself(w: Work, key: Key, other: Key, clock: nat -> Clock)
    requires WellFormed(w.cluster) && (forall k :: !Obstructed(w.cluster, k)) && key in w.queue && other in w.queue
    requires key != other && key in Wakes(w.cluster, key) && key in Wakes(w.cluster, other)
    ensures Schedule(w, [key, key, other, key], clock)
  {
    hide WellFormed, Wakes, Obstructed, AfterPasses, Schedule;
    EmptySchedule(w, clock);
    assert [] + [key] == [key] && [key] + [key] == [key, key] && [key, key] + [other] == [key, key, other];
    ScheduleStep(w, [], clock, key);
    ScheduleStep(w, [key], clock, key);
    ScheduleStep(w, [key, key], clock, other);
    ScheduleStep(w, [key, key, other], clock, key);
    assert [key, key, other] + [key] == [key, key, other, key];
  }

  /** And so can one woken by two others. */
  lemma ThirdPassAfterOthers(w: Work, key: Key, a: Key, b: Key, clock: nat -> Clock)
    requires WellFormed(w.cluster) && (forall k :: !Obstructed(w.cluster, k)) && key in w.queue && a in w.queue && b in w.queue
    requires key != a && key != b && a != b && key in Wakes(w.cluster, a) && key in Wakes(w.cluster, b)
    ensures Schedule(w, [key, a, key, b, key], clock)
  {
    hide WellFormed, Wakes, Obstructed, AfterPasses, Schedule;
    EmptySchedule(w, clock);
    assert [] + [key] == [key] && [key] + [a] == [key, a] && [key, a] + [key] == [key, a, key];
    assert [key, a, key] + [b] == [key, a, key, b] && [key, a, key, b] + [key] == [key, a, key, b, key];
    ScheduleStep(w, [], clock, key);
    ScheduleStep(w, [key], clock, a);
    ScheduleStep(w, [key, a], clock, key);
    ScheduleStep(w, [key, a, key], clock, b);
    ScheduleStep(w, [key, a, key, b], clock, key);
  }

  /** Every schedule from every queue reconciles each runtime at most twice. */
  ghost predicate TwoPassesSuffice(cluster: Cluster, clock: nat -> Clock) {
    forall queue, keys, key :: Schedule(Work(cluster, queue), keys, clock) ==> multiset(keys)[key] <= 2
  }

  lemma ThreePasses(cluster: Cluster, queue: set<Key>, keys: seq<Key>, clock: nat -> Clock, key: Key)
    requires Schedule(Work(cluster, queue), keys, clock) && multiset(keys)[key] == 3
    ensures !TwoPassesSuffice(cluster, clock)
  {
    hide Schedule;
  }

  lemma CountThree(key: Key, a: Key, b: Key)
    requires a != key && b != key
    ensures multiset([key, key, b, key])[key] == 3 && multiset([key, a, key, b, key])[key] == 3
  {
  }

  lemma TwoWakersThreePasses(cluster: Cluster, clock: nat -> Clock, key: Key, a: Key, b: Key)
    requires WellFormed(cluster) && forall k :: !Obstructed(cluster, k)
    requires a != b && key in Wakes(cluster, a) && key in Wakes(cluster, b)
    ensures !TwoPassesSuffice(cluster, clock)
  {
    hide WellFormed, Wakes, Obstructed, AfterPasses, Schedule, TwoPassesSuffice;
    var queue := {key, a, b};
    var w := Work(cluster, queue);
    if key == a {
      CountThree(key, b, b);
      ThirdPassAfterItself(w, key, b, clock);
      ThreePasses(cluster, queue, [key, key, b, key], clock, key);
    } else if key == b {
      CountThree(key, a, a);
      ThirdPassAfterItself(w, key, a, clock);
      ThreePasses(cluster, queue, [key, key, a, key], clock, key);
    } else {
      CountThree(key, a, b);
      ThirdPassAfterOthers(w, key, a, b, clock);
      ThreePasses(cluster, queue, [key, a, key, b, key], clock, key);
    }
  }

  /** Two passes per runtime are always enough exactly when nobody is woken by two runtimes, itself
      included. */
  lemma TwoPassesSufficeIff(cluster: Cluster, clock: nat -> Clock)
    requires WellFormed(cluster) && forall key :: !Obstructed(cluster, key)
    ensures TwoPassesSuffice(cluster, clock) <==> OneWaker(cluster)
  {
    hide WellFormed, Wakes, Obstructed, AfterPasses, Schedule, WokenIn;
    if OneWaker(cluster) {
      forall queue, keys, key | Schedule(Work(cluster, queue), keys, clock) ensures multiset(keys)[key] <= 2 {
        AtMostTwice(Work(cluster, queue), keys, clock, key);
      }
    } else {
      var key, a, b :| key in Wakes(cluster, a) && key in Wakes(cluster, b) && a != b;
      TwoWakersThreePasses(cluster, clock, key, a, b);
    }
  }

  /** They are not always enough: a new runtime that controls another's disabled object is woken by
      its own first pass and by the deletion of that object. */
  lemma NewHolderWokenTwice(cluster: Cluster, clock: nat -> Clock, holder: Key, other: Key)
    requires WellFormed(cluster) && forall key :: !Obstructed(cluster, key)
    requires Live(cluster, holder) && ManagedAt(cluster, holder) == NO_RESOURCES
    requires CheckReferences(cluster.runtimes[holder].spec, holder.namespace, cluster.secrets, map[]) == AllFound
    requires holder != other && holder in Bystanders(cluster, other)
    ensures !TwoPassesSuffice(cluster, clock)
  {
    hide WellFormed, Wakes, Obstructed, Bystanders, TwoPassesSuffice, CheckReferences, SettledAt, Live, ManagedAt;
    FirstPassWakesItself(cluster, holder);
    WakesBystanders(cluster, other);
    assert holder in Wakes(cluster, other) - {other};
    TwoWakersThreePasses(cluster, clock, holder, holder, other);
  }

  lemma FirstPassWakesItself(cluster: Cluster, key: Key)
    requires WellFormed(cluster) && !Obstructed(cluster, key) && Live(cluster, key)
    requires CheckReferences(cluster.runtimes[key].spec, key.namespace, cluster.secrets, map[]) == AllFound
    requires ManagedAt(cluster, key) == NO_RESOURCES
    ensures key in Wakes(cluster, key)
  {
    hide CheckReferences, Conflict, VerdictOf, KeepsUnmanaged, ReconcileCore, ConfigData, RuntimeLabels;
    var runtime := cluster.runtimes[key];
    VerdictManages(runtime, NO_RESOURCES, cluster.secrets, NO_FAULTS);
    DriftCorrection(NO_RESOURCES, runtime);
    var after := ReconcileCore(NO_RESOURCES, runtime, map[]).managed;
    assert Conforms(ConfigMaps, after, runtime);
    assert key in Woken(NO_RESOURCES.configMap, after.configMap, key.namespace);
  }

  /** One turn of a worker: reconcile the key, then queue what asks for it. */
  method WorkOff(reconciler: RuntimeReconciler, pending: set<Key>, key: Key, now: Clock) returns (left: set<Key>)
    requires WellFormed(reconciler.cluster)
    modifies reconciler, reconciler.recorder
    ensures Work(reconciler.cluster, left) == Pass(Work(old(reconciler.cluster), pending), key, now)
    ensures reconciler.recorder.events ==
            old(reconciler.recorder.events) + ReconcileEffect(old(reconciler.cluster), key, NO_FAULTS, now).events
  {
    KeysNamed(reconciler.cluster, key);
    hide WellFormed, ReconcileEffect, WokenBy;
    var before := reconciler.cluster;
    var error := reconciler.Reconcile(key, NO_FAULTS, now);
    left := pending - {key} + WokenBy(ManagedAt(before, key), ManagedAt(reconciler.cluster, key), key.namespace);
    if error.Some? {
      left := left + {key};
    }
  }

  /** Works a queue off, in any order. With nothing obstructed it comes to an end; what it did is a
      schedule, and the lemmas above say what every schedule leads to. */
  method Drain(reconciler: RuntimeReconciler, queue: set<Key>, clock: nat -> Clock) returns (passes: seq<Key>)
    requires WellFormed(reconciler.cluster)
    requires forall key :: !Obstructed(reconciler.cluster, key)
    modifies reconciler, reconciler.recorder
    ensures Schedule(Work(old(reconciler.cluster), queue), passes, clock)
    ensures AfterPasses(Work(old(reconciler.cluster), queue), passes, clock) == Work(reconciler.cluster, {})
    ensures reconciler.recorder.events ==
            old(reconciler.recorder.events) + PassEvents(Work(old(reconciler.cluster), queue), passes, clock)
    ensures |passes| <= |queue| + 3 * |old(reconciler.cluster).runtimes|
    ensures forall key :: key in queue || key in passes ==> Quiet(reconciler.cluster, key)
  {
    hide WellFormed, Obstructed, ReconcileEffect, Pass, Quiet, Schedule, AfterPasses, PassEvents, DiffersAt;
    passes := [];
    var pending := queue;
    ghost var start := Work(reconciler.cluster, queue);
    EmptySchedule(start, clock);
    while pending != {}
      invariant Schedule(start, passes, clock)
      invariant AfterPasses(start, passes, clock) == Work(reconciler.cluster, pending)
      invariant reconciler.recorder.events == old(reconciler.recorder.events) + PassEvents(start, passes, clock)
      invariant |passes| <= |queue| + 3 * |start.cluster.runtimes|
      decreases |queue| + 3 * |start.cluster.runtimes| - |passes|
    {
      var key :| key in pending;
      PassesFrame(start, passes, clock);
      ScheduleSnoc(start, passes, clock, key);
      SchedulesAreBounded(start, passes + [key], clock);
      var now := clock(|passes|);
      pending := WorkOff(reconciler, pending, key, now);
      passes := passes + [key];
    }
    forall key | key in queue || key in passes ensures Quiet(reconciler.cluster, key) {
      DrainedIsQuiet(start, passes, clock, key);
    }
  }

  lemma KeysNamed(cluster: Cluster, key: Key)
    requires WellFormed(cluster)
    ensures key in cluster.runtimes ==> key in cluster.managed && cluster.runtimes[key].key == key
  {
  }
}
