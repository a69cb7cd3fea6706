/** reconcileDeployment racing the HorizontalPodAutoscaler: a read and a version-checked write,
    interleaved with the autoscaler's and anybody else's writes to the same Deployment. */
module ReplicaRace {
  import opened Wrappers
  import opened RuntimeApi
  import opened RuntimeResources
  import opened ManagedResources

  datatype Versioned = Versioned(version: nat, resource: Resource<Deployment>)

  /** `read` is what the controller's Get returned, if it is between Get and write. */
  datatype State = State(store: Option<Versioned>, nextVersion: nat, read: Option<Option<Versioned>>)

  datatype Action =
    | Get
    | Write(runtime: Runtime)
    | Scale(replicas: int)
    | OtherUpdate(resource: Resource<Deployment>)
    | Delete

  function Replicas(store: Option<Versioned>): Option<int> {
    if store.None? then None else store.value.resource.body.spec.replicas
  }

  function Put(s: State, resource: Resource<Deployment>): State {
    s.(store := Some(Versioned(s.nextVersion, resource)), nextVersion := s.nextVersion + 1)
  }

  function ResourceOf(v: Option<Versioned>): Option<Resource<Deployment>> {
    if v.None? then None else Some(v.value.resource)
  }

  /** Create fails when the object exists, Update when its version moved on, and nothing is sent
      when the callback changed nothing or refused. */
  function WriteBack(s: State, runtime: Runtime): State
    requires s.read.Some?
  {
    var idle := s.(read := None);
    var mutated := CreateOrUpdate(ResourceOf(s.read.value), runtime, (d: Option<Deployment>) => DeploymentBody(runtime, d));
    if mutated.None? || mutated == ResourceOf(s.read.value) then idle
    else if s.read.value.None? then
      if s.store.Some? then idle else Put(idle, mutated.value)
    else if s.store.None? || s.store.value.version != s.read.value.value.version then idle
    else Put(idle, mutated.value)
  }

  predicate Enabled(s: State, action: Action) {
    match action
    case Get => s.read.None?
    case Write(runtime) => s.read.Some? && AutoscalingEnabled(runtime.spec)
    case Scale(_) => s.store.Some?
    case OtherUpdate(resource) => s.store.Some? && resource.body.spec.replicas == Replicas(s.store)
    case Delete => s.store.Some?
  }

  function Next(s: State, action: Action): State
    requires Enabled(s, action)
  {
    match action
    case Get => s.(read := Some(s.store))
    case Write(runtime) => WriteBack(s, runtime)
    case Scale(n) =>
      var resource := s.store.value.resource;
      Put(s, resource.(body := resource.body.(generation := resource.body.generation + 1,
                                          spec := resource.body.spec.(replicas := Some(n)))))
    case OtherUpdate(resource) => Put(s, resource)
    case Delete => s.(store := None)
  }

  /** Versions are never reused, so an equal version means an unchanged object. */
  predicate Consistent(s: State) {
    && (s.store.Some? ==> s.store.value.version < s.nextVersion)
    && (s.read.Some? && s.read.value.Some? ==> s.read.value.value.version < s.nextVersion)
    && (s.read.Some? && s.read.value.Some? && s.store.Some? && s.read.value.value.version == s.store.value.version ==>
        s.read.value.value.resource == s.store.value.resource)
  }

  /** The replica count the controller gives a Deployment that has none. */
  function DefaultReplicas(runtime: Runtime): Option<int> {
    DesiredDeploymentSpec(runtime.key.name, runtime.spec).replicas
  }

  /** No controller write alters a replica count that is set; one that is not set stays so or gets
      its default. */
  lemma ControllerNeverRescales(s: State, runtime: Runtime)
    requires Consistent(s) && s.read.Some? && AutoscalingEnabled(runtime.spec)
    ensures Consistent(WriteBack(s, runtime))
    ensures Replicas(s.store).Some? ==> Replicas(WriteBack(s, runtime).store) == Replicas(s.store)
    ensures Replicas(s.store).None? ==> Replicas(WriteBack(s, runtime).store) in {None, DefaultReplicas(runtime)}
  {
    hide DesiredTemplate, RuntimeLabels, SelectorLabels;
  }

  lemma NextReplicas(s: State, action: Action)
    requires Enabled(s, action) && Consistent(s)
    ensures Consistent(Next(s, action))
    ensures var before, after := Replicas(s.store), Replicas(Next(s, action).store);
            match action
            case Scale(n) => after == Some(n)
            case Delete => after.None?
            case Write(runtime) => after == before || (before.None? && after == DefaultReplicas(runtime))
            case _ => after == before
  {
    if action.Write? { ControllerNeverRescales(s, action.runtime); }
    hide WriteBack, DefaultReplicas;
  }

  /******* Runs *******/

  ghost predicate Possible(s: State, actions: seq<Action>)
    decreases |actions|, 0
  {
    actions == [] ||
      var n := |actions| - 1;
      Possible(s, actions[..n]) && Enabled(After(s, actions[..n]), actions[n])
  }

  ghost function After(s: State, actions: seq<Action>): State
    requires Possible(s, actions)
    decreases |actions|, 1
  {
    if actions == [] then s
    else
      var n := |actions| - 1;
      Next(After(s, actions[..n]), actions[n])
  }

  /** The last autoscaler write since the Deployment last came into being; `initial` if there was
      neither a write nor a deletion. */
  function LastScale(initial: Option<int>, actions: seq<Action>): Option<int> {
    if actions == [] then initial
    else
      match actions[|actions| - 1]
      case Scale(n) => Some(n)
      case Delete => None
      case _ => LastScale(initial, actions[..|actions| - 1])
  }

  ghost predicate DefaultOfWrite(actions: seq<Action>, replicas: Option<int>) {
    exists i :: 0 <= i < |actions| && actions[i].Write? && replicas == DefaultReplicas(actions[i].runtime)
  }

  lemma DefaultStays(actions: seq<Action>, action: Action, replicas: Option<int>)
    requires DefaultOfWrite(actions, replicas) || (action.Write? && replicas == DefaultReplicas(action.runtime))
    ensures DefaultOfWrite(actions + [action], replicas)
  {
    var all := actions + [action];
    if DefaultOfWrite(actions, replicas) {
      var i :| 0 <= i < |actions| && actions[i].Write? && replicas == DefaultReplicas(actions[i].runtime);
      assert all[i] == actions[i];
    } else {
      assert all[|actions|] == action;
    }
  }

  /** The count is the last autoscaler write; before there is one, it is unset or the default of some
      controller write. */
  ghost predicate Explains(last: Option<int>, replicas: Option<int>, actions: seq<Action>) {
    && (last.Some? ==> replicas == last)
    && (last.None? && replicas.Some? ==> DefaultOfWrite(actions, replicas))
  }

  lemma ExplainsNext(last: Option<int>, before: Option<int>, after: Option<int>, actions: seq<Action>, action: Action)
    requires Explains(last, before, actions)
    requires match action
             case Scale(n) => after == Some(n)
             case Delete => after.None?
             case Write(runtime) => after == before || (before.None? && after == DefaultReplicas(runtime))
             case _ => after == before
    ensures Explains(match action case Scale(n) => Some(n) case Delete => None case _ => last, after, actions + [action])
  {
    hide DefaultOfWrite, DefaultReplicas;
    if after.Some? && !action.Scale? && last.None? {
      DefaultStays(actions, action, after);
    }
  }

  /** While autoscaling stays enabled, in every interleaving of autoscaler, controller and other
      writers, the Deployment's replica count is the last autoscaler write; before there is one, it
      is unset or the default of some controller write. */
  lemma {:induction false} AutoscalerDecisionsSurvive(s: State, actions: seq<Action>)
    requires Consistent(s) && Possible(s, actions)
    ensures Consistent(After(s, actions))
    ensures Explains(LastScale(Replicas(s.store), actions), Replicas(After(s, actions).store), actions)
    decreases |actions|
  {
    if actions == [] {
    } else {
      hide Next, Enabled, Consistent, Explains, DefaultReplicas, Replicas;
      var n := |actions| - 1;
      var front, action := actions[..n], actions[n];
      AutoscalerDecisionsSurvive(s, front);
      NextReplicas(After(s, front), action);
      assert actions == front + [action];
      ExplainsNext(LastScale(Replicas(s.store), front), Replicas(After(s, front).store), Replicas(After(s, actions).store), front, action);
    }
  }
}
