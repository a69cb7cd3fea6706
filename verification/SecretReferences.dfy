/** Secret references of a runtime: their validation and the Secret watch. */
module SecretReferences {
  import opened Ordering
  import opened RuntimeApi
  import opened RuntimeStatus

  function ReferencedNames(spec: Spec): set<string> {
    (if spec.provider.credentials.None? then {} else {spec.provider.credentials.value.name})
    + set x | x in spec.imagePullSecrets
  }

  function SecretNames(spec: Spec): seq<string> {
    SortedSeq(ReferencedNames(spec))
  }

  /** referencedSecretNames: collects the names in a map, ranges over it, sorts. */
  method ReferencedSecretNames(spec: Spec) returns (names: seq<string>)
    ensures names == SecretNames(spec)
  {
    var unique: set<string> := {};
    if spec.provider.credentials.Some? {
      unique := unique + {spec.provider.credentials.value.name};
    }
    ghost var credentials := unique;
    for n := 0 to |spec.imagePullSecrets|
      invariant unique == credentials + set x | x in spec.imagePullSecrets[..n]
    {
      unique := unique + {spec.imagePullSecrets[n]};
    }
    assert spec.imagePullSecrets[..|spec.imagePullSecrets|] == spec.imagePullSecrets;
    assert unique == ReferencedNames(spec);
    hide ReferencedNames, SortedSeq;
    var listed := RangeOver(unique);
    names := SortStrings(listed);
  }

  /******* Validation *******/

  datatype SecretCheck = AllFound | NotFound(name: string) | LookupFailed(name: string, error: string)

  /** Looks the names up in order and stops at the first that is missing or cannot be read;
      `errors` are the lookups that fail. */
  function CheckSecrets(names: seq<string>, namespace: string, secrets: set<Key>, errors: map<string, string>): SecretCheck {
    if names == [] then AllFound
    else if names[0] in errors then LookupFailed(names[0], errors[names[0]])
    else if Key(namespace, names[0]) !in secrets then NotFound(names[0])
    else CheckSecrets(names[1..], namespace, secrets, errors)
  }

  function CheckReferences(spec: Spec, namespace: string, secrets: set<Key>, errors: map<string, string>): SecretCheck {
    CheckSecrets(SecretNames(spec), namespace, secrets, errors)
  }

  /** validateSecretReferences. */
  method ValidateSecretReferences(spec: Spec, namespace: string, secrets: set<Key>, errors: map<string, string>)
    returns (check: SecretCheck)
    ensures check == CheckReferences(spec, namespace, secrets, errors)
  {
    var names := ReferencedSecretNames(spec);
    for n := 0 to |names|
      invariant CheckSecrets(names, namespace, secrets, errors) == CheckSecrets(names[n..], namespace, secrets, errors)
    {
      var name := names[n];
      assert names[n..][0] == name && names[n..][1..] == names[n + 1..];
      if name in errors {
        return LookupFailed(name, errors[name]);
      }
      if Key(namespace, name) !in secrets {
        return NotFound(name);
      }
    }
    assert names[|names|..] == [];
    return AllFound;
  }

  function OutcomeOf(check: SecretCheck, namespace: string): Outcome {
    match check
    case AllFound => Validated(ReferencesValid)
    case NotFound(name) => Validated(ReferencesInvalid(SecretNotFound, SecretMissing(name)))
    case LookupFailed(name, error) => Failed("get referenced Secret " + namespace + "/" + name + ": " + error)
  }

  ghost predicate Unresolved(spec: Spec, namespace: string, secrets: set<Key>, name: string) {
    name in ReferencedNames(spec) && Key(namespace, name) !in secrets
  }

  /** The Secret is missing or cannot be looked up. */
  predicate Blocks(name: string, namespace: string, secrets: set<Key>, errors: map<string, string>) {
    name in errors || Key(namespace, name) !in secrets
  }

  /** What validation reports about such a Secret: that it could not be read is known before that
      it is missing. */
  function Complaint(name: string, errors: map<string, string>): SecretCheck {
    if name in errors then LookupFailed(name, errors[name]) else NotFound(name)
  }

  ghost predicate FirstBlocked(names: seq<string>, namespace: string, secrets: set<Key>, errors: map<string, string>, i: nat) {
    && i < |names| && Blocks(names[i], namespace, secrets, errors)
    && forall j :: 0 <= j < i ==> !Blocks(names[j], namespace, secrets, errors)
  }

  /** The lookups in order complain about the first name that blocks, if there is one. */
  lemma {:induction false} LookupsStopAtFirst(names: seq<string>, namespace: string, secrets: set<Key>, errors: map<string, string>)
    ensures CheckSecrets(names, namespace, secrets, errors) == AllFound <==>
            forall i :: 0 <= i < |names| ==> !Blocks(names[i], namespace, secrets, errors)
    ensures forall i: nat :: FirstBlocked(names, namespace, secrets, errors, i) ==>
              CheckSecrets(names, namespace, secrets, errors) == Complaint(names[i], errors)
  {
    if names == [] {
    } else {
      var rest := names[1..];
      LookupsStopAtFirst(rest, namespace, secrets, errors);
      assert forall i :: 0 < i < |names| ==> names[i] == rest[i - 1];
      forall i: nat | FirstBlocked(names, namespace, secrets, errors, i)
        ensures CheckSecrets(names, namespace, secrets, errors) == Complaint(names[i], errors)
      {
        if i > 0 {
          assert FirstBlocked(rest, namespace, secrets, errors, i - 1);
        }
      }
    }
  }

  lemma {:induction false} SomeFirstBlocked(names: seq<string>, namespace: string, secrets: set<Key>, errors: map<string, string>)
    returns (i: nat)
    requires exists k :: 0 <= k < |names| && Blocks(names[k], namespace, secrets, errors)
    ensures FirstBlocked(names, namespace, secrets, errors, i)
  {
    hide Blocks;
    if Blocks(names[0], namespace, secrets, errors) {
      i := 0;
    } else {
      var k :| 0 <= k < |names| && Blocks(names[k], namespace, secrets, errors);
      assert names[1..][k - 1] == names[k];
      var j := SomeFirstBlocked(names[1..], namespace, secrets, errors);
      i := j + 1;
      assert forall n :: 0 < n < |names| ==> names[n] == names[1..][n - 1];
    }
  }

  lemma NoLookupFails(names: seq<string>, namespace: string, secrets: set<Key>)
    ensures !CheckSecrets(names, namespace, secrets, map[]).LookupFailed?
  {
    LookupsStopAtFirst(names, namespace, secrets, map[]);
    hide CheckSecrets;
    if i :| 0 <= i < |names| && Blocks(names[i], namespace, secrets, map[]) {
      var first := SomeFirstBlocked(names, namespace, secrets, map[]);
    }
  }

  /** The name is referenced, blocks, and comes before every other such name. */
  ghost predicate LeastBlocking(spec: Spec, namespace: string, secrets: set<Key>, errors: map<string, string>, name: string) {
    && name in ReferencedNames(spec) && Blocks(name, namespace, secrets, errors)
    && forall x :: x in ReferencedNames(spec) && Blocks(x, namespace, secrets, errors) && x != name ==> Less(name, x)
  }

  /** Validation succeeds exactly when every referenced Secret can be read and exists; otherwise it
      reports the first name in string order that cannot be read or is missing, and which of the two
      it is, however the references are ordered or repeated. */
  lemma ValidationReportsFirst(spec: Spec, namespace: string, secrets: set<Key>, errors: map<string, string>, name: string)
    ensures CheckReferences(spec, namespace, secrets, errors) == AllFound <==>
            forall x :: x in ReferencedNames(spec) ==> x !in errors && Key(namespace, x) in secrets
    ensures CheckReferences(spec, namespace, secrets, errors) == Complaint(name, errors) <==>
            LeastBlocking(spec, namespace, secrets, errors, name)
  {
    var names := SecretNames(spec);
    LookupsStopAtFirst(names, namespace, secrets, errors);
    hide ReferencedNames, CheckSecrets, Less;
    assert forall i :: 0 <= i < |names| ==> names[i] in names;
    if CheckReferences(spec, namespace, secrets, errors) == Complaint(name, errors) {
      var i := SomeFirstBlocked(names, namespace, secrets, errors);
      forall x | x in ReferencedNames(spec) && Blocks(x, namespace, secrets, errors) && x != name ensures Less(name, x) {
        var j :| 0 <= j < |names| && names[j] == x;
      }
    }
    if LeastBlocking(spec, namespace, secrets, errors, name) {
      var i :| 0 <= i < |names| && names[i] == name;
      forall j | 0 <= j < i ensures !Blocks(names[j], namespace, secrets, errors) {
        LessTotal(names[j], name);
      }
      assert FirstBlocked(names, namespace, secrets, errors, i);
    }
  }

  /******* Secret watch *******/

  predicate References(spec: Spec, name: string) {
    name in ReferencedNames(spec)
  }

  /** The runtimes that a change of this Secret must wake. */
  function SecretRequests(runtimes: map<Key, Runtime>, secret: Key): set<Key> {
    set k | k in runtimes && k.namespace == secret.namespace && References(runtimes[k].spec, secret.name)
  }

  /** The List call: the namespace's runtimes, in some order. */
  method ListRuntimes(runtimes: map<Key, Runtime>, namespace: string) returns (items: seq<Runtime>)
    ensures forall runtime :: runtime in items <==> exists k :: k in runtimes && k.namespace == namespace && runtimes[k] == runtime
  {
    var wanted := set k | k in runtimes && k.namespace == namespace;
    var keys := RangeOver(wanted);
    forall k ensures k in keys <==> k in wanted { assert k in (set x | x in keys) <==> k in wanted; }
    items := [];
    for n := 0 to |keys|
      invariant forall i :: 0 <= i < |keys| ==> keys[i] in wanted
      invariant forall runtime :: runtime in items <==> exists i :: 0 <= i < n && runtimes[keys[i]] == runtime
    {
      assert keys[n] in keys;
      items := items + [runtimes[keys[n]]];
    }
    forall k | k in runtimes && k.namespace == namespace ensures exists i :: 0 <= i < |keys| && runtimes[keys[i]] == runtimes[k] {
      assert k in wanted && k in keys;
      var i :| 0 <= i < |keys| && keys[i] == k;
    }
  }

  /** mapSecretToRuntimes: exactly the runtimes to wake, or none when the List fails. */
  method MapSecretToRuntimes(runtimes: map<Key, Runtime>, secret: Key, listFails: bool) returns (requests: seq<Key>)
    requires forall k :: k in runtimes ==> runtimes[k].key == k
    ensures (set k | k in requests) == if listFails then {} else SecretRequests(runtimes, secret)
  {
    requests := [];
    if listFails {
      return;
    }
    var items := ListRuntimes(runtimes, secret.namespace);
    for index := 0 to |items|
      invariant forall k :: k in requests <==> exists i :: 0 <= i < index && items[i].key == k && References(items[i].spec, secret.name)
    {
      var names := ReferencedSecretNames(items[index].spec);
      if secret.name !in names {
        continue;
      }
      requests := requests + [items[index].key];
    }
    hide ReferencedNames;
    forall k | k in SecretRequests(runtimes, secret) ensures k in requests {
      assert runtimes[k] in items;
      var i :| 0 <= i < |items| && items[i] == runtimes[k];
    }
    forall k | k in requests ensures k in SecretRequests(runtimes, secret) {
      var i :| 0 <= i < |items| && items[i].key == k && References(items[i].spec, secret.name);
      assert items[i] in items;
    }
  }

  lemma {:induction false} UnlistedSecretIrrelevant(names: seq<string>, namespace: string, before: set<Key>, after: set<Key>, errors: map<string, string>)
    requires forall i :: 0 <= i < |names| ==> (Key(namespace, names[i]) in before <==> Key(namespace, names[i]) in after)
    ensures CheckSecrets(names, namespace, before, errors) == CheckSecrets(names, namespace, after, errors)
  {
    if names == [] {
    } else {
      assert forall i :: 0 < i < |names| ==> names[1..][i - 1] == names[i];
      assert Key(namespace, names[0]) in before <==> Key(namespace, names[0]) in after;
      UnlistedSecretIrrelevant(names[1..], namespace, before, after, errors);
    }
  }

  /** The two stores differ at most in this Secret, and the runtime's validation tells them apart. */
  ghost predicate Notices(runtime: Runtime, namespace: string, secret: Key, before: set<Key>, after: set<Key>, errors: map<string, string>) {
    && before - {secret} == after - {secret}
    && CheckReferences(runtime.spec, namespace, before, errors) != CheckReferences(runtime.spec, namespace, after, errors)
  }

  /** If two stores differ only in one Secret, every runtime whose validation differs is woken by
      that Secret's watch. */
  lemma SecretWatchComplete(runtimes: map<Key, Runtime>, before: set<Key>, after: set<Key>, secret: Key, k: Key, errors: map<string, string>)
    requires k in runtimes && Notices(runtimes[k], k.namespace, secret, before, after, errors)
    ensures k in SecretRequests(runtimes, secret)
  {
    if k !in SecretRequests(runtimes, secret) {
      var names := SecretNames(runtimes[k].spec);
      forall i | 0 <= i < |names| ensures Key(k.namespace, names[i]) in before <==> Key(k.namespace, names[i]) in after {
        assert names[i] in names;
        var read := Key(k.namespace, names[i]);
        assert read != secret;
        assert read in before - {secret} <==> read in after - {secret};
      }
      UnlistedSecretIrrelevant(names, k.namespace, before, after, errors);
    }
  }

  /** The watch wakes nobody in vain: a runtime is woken exactly when some change of this Secret
      would change its validation. */
  lemma SecretWatchExact(runtimes: map<Key, Runtime>, secret: Key, k: Key)
    requires k in runtimes
    ensures k in SecretRequests(runtimes, secret) <==>
            exists before, after, errors :: Notices(runtimes[k], k.namespace, secret, before, after, errors)
  {
    if before, after, errors :| Notices(runtimes[k], k.namespace, secret, before, after, errors) {
      SecretWatchComplete(runtimes, before, after, secret, k, errors);
    }
    if k in SecretRequests(runtimes, secret) {
      var spec := runtimes[k].spec;
      var all := set name | name in ReferencedNames(spec) :: Key(k.namespace, name);
      hide ReferencedNames, CheckReferences;
      assert secret == Key(k.namespace, secret.name) && secret in all;
      ValidationReportsFirst(spec, k.namespace, all, map[], secret.name);
      ValidationReportsFirst(spec, k.namespace, all - {secret}, map[], secret.name);
      assert Notices(runtimes[k], k.namespace, secret, all, all - {secret}, map[]);
    }
  }
}
