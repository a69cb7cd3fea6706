/** Condition lists: meta.FindStatusCondition, meta.SetStatusCondition and
    preserveRuntimeConditionTransitionTimes.

    An update is a Condition whose `lastTransitionTime` is the clock reading of the call that sets
    it; the list decides whether that reading is used. */
module Conditions {
  import opened Wrappers
  import opened RuntimeApi

  function IndexOf(cs: seq<Condition>, kind: ConditionType): (i: nat)
    ensures i <= |cs|
    ensures i < |cs| ==> cs[i].kind == kind
    ensures forall j :: 0 <= j < i ==> cs[j].kind != kind
  {
    if cs == [] || cs[0].kind == kind then 0 else 1 + IndexOf(cs[1..], kind)
  }

  /** The first condition of that type. */
  function Find(cs: seq<Condition>, kind: ConditionType): Option<Condition> {
    var i := IndexOf(cs, kind);
    if i < |cs| then Some(cs[i]) else None
  }

  /** meta.SetStatusCondition: everything is overwritten, the transition time only when the status
      changes; a missing type is appended. */
  function SetCondition(cs: seq<Condition>, update: Condition): seq<Condition> {
    var i := IndexOf(cs, update.kind);
    if i == |cs| then cs + [update] else cs[i := Overwrite(cs[i], update)]
  }

  function Overwrite(existing: Condition, update: Condition): Condition {
    if existing.status == update.status then WithTime(update, existing.lastTransitionTime) else update
  }

  predicate Unique(cs: seq<Condition>) {
    forall i, j :: 0 <= i < j < |cs| ==> cs[i].kind != cs[j].kind
  }

  /** A sequence of setRuntimeCondition calls. */
  function ApplyAll(cs: seq<Condition>, updates: seq<Condition>): seq<Condition> {
    if updates == [] then cs
    else SetCondition(ApplyAll(cs, updates[..|updates| - 1]), updates[|updates| - 1])
  }

  function LastFor(updates: seq<Condition>, kind: ConditionType): Option<Condition> {
    if updates == [] then None
    else if updates[|updates| - 1].kind == kind then Some(updates[|updates| - 1])
    else LastFor(updates[..|updates| - 1], kind)
  }

  lemma {:induction false} ApplyConcat(cs: seq<Condition>, a: seq<Condition>, b: seq<Condition>)
    ensures ApplyAll(cs, a + b) == ApplyAll(ApplyAll(cs, a), b)
  {
    if b == [] {
      assert a + b == a;
    } else {
      var front := b[..|b| - 1];
      assert (a + b)[..|a + b| - 1] == a + front;
      ApplyConcat(cs, a, front);
    }
  }

  lemma {:induction false} LastForConcat(a: seq<Condition>, b: seq<Condition>, kind: ConditionType)
    ensures LastFor(a + b, kind) == if LastFor(b, kind).Some? then LastFor(b, kind) else LastFor(a, kind)
  {
    if b == [] {
      assert a + b == a;
    } else {
      assert (a + b)[..|a + b| - 1] == a + b[..|b| - 1];
      LastForConcat(a, b[..|b| - 1], kind);
    }
  }

  lemma FindSet(cs: seq<Condition>, update: Condition, kind: ConditionType)
    ensures Find(SetCondition(cs, update), kind) ==
            if kind != update.kind then Find(cs, kind)
            else if Find(cs, kind).None? then Some(update)
            else Some(Overwrite(Find(cs, kind).value, update))
  {
    var after := SetCondition(cs, update);
    var i, j := IndexOf(cs, kind), IndexOf(after, kind);
    assert forall k :: 0 <= k < |cs| ==> after[k].kind == cs[k].kind;
    assert i < |cs| ==> after[i].kind == kind;
    assert j < |cs| ==> cs[j].kind == kind;
    assert |after| > |cs| ==> after[|cs|] == update;
  }

  ghost predicate IsReading(updates: seq<Condition>, kind: ConditionType, time: Time) {
    exists i :: 0 <= i < |updates| && updates[i].kind == kind && updates[i].lastTransitionTime == time
  }

  lemma ReadingGrows(updates: seq<Condition>, last: Condition, kind: ConditionType, time: Time)
    ensures IsReading(updates, kind, time) ==> IsReading(updates + [last], kind, time)
  {
    if IsReading(updates, kind, time) {
      var i :| 0 <= i < |updates| && updates[i].kind == kind && updates[i].lastTransitionTime == time;
      assert (updates + [last])[i] == updates[i];
    }
  }

  function WithTime(c: Condition, time: Time): Condition {
    c.(lastTransitionTime := time)
  }

  ghost predicate SameButTime(a: Condition, b: Condition) {
    WithTime(a, b.lastTransitionTime) == b
  }

  /** After any updates, a condition shows its last update; its transition time is a reading of one
      of its updates, or untouched together with the status. */
  lemma {:induction false} FindApply(cs: seq<Condition>, updates: seq<Condition>, kind: ConditionType)
    ensures LastFor(updates, kind).None? ==> Find(ApplyAll(cs, updates), kind) == Find(cs, kind)
    ensures LastFor(updates, kind).Some? ==>
              var found := Find(ApplyAll(cs, updates), kind);
              && found.Some?
              && SameButTime(found.value, LastFor(updates, kind).value)
              && (|| IsReading(updates, kind, found.value.lastTransitionTime)
                  || (&& Find(cs, kind).Some?
                      && Find(cs, kind).value.status == found.value.status
                      && Find(cs, kind).value.lastTransitionTime == found.value.lastTransitionTime))
  {
    if updates == [] {
    } else {
      var front, last := updates[..|updates| - 1], updates[|updates| - 1];
      hide IndexOf, SetCondition, Find;
      FindApply(cs, front, kind);
      FindSet(ApplyAll(cs, front), last, kind);
      assert updates == front + [last];
      if last.kind == kind {
        assert updates[|front|] == last;
        assert IsReading(updates, kind, last.lastTransitionTime);
      }
      var before := Find(ApplyAll(cs, front), kind);
      if before.Some? { ReadingGrows(front, last, kind, before.value.lastTransitionTime); }
      hide IsReading;
    }
  }

  lemma SetShape(cs: seq<Condition>, update: Condition)
    requires Unique(cs)
    ensures var after := SetCondition(cs, update);
            && Unique(after)
            && |after| == (if IndexOf(cs, update.kind) < |cs| then |cs| else |cs| + 1)
            && forall i :: 0 <= i < |cs| ==> after[i].kind == cs[i].kind
  {
  }

  /** Updates keep the order of the list and the uniqueness of its types. */
  lemma {:induction false} ApplyShape(cs: seq<Condition>, updates: seq<Condition>)
    requires Unique(cs)
    ensures Unique(ApplyAll(cs, updates))
    ensures |cs| <= |ApplyAll(cs, updates)|
    ensures forall i :: 0 <= i < |cs| ==> ApplyAll(cs, updates)[i].kind == cs[i].kind
    ensures (forall i :: 0 <= i < |updates| ==> Find(cs, updates[i].kind).Some?) ==> |ApplyAll(cs, updates)| == |cs|
  {
    if updates == [] {
    } else {
      hide SetCondition;
      var front, last := updates[..|updates| - 1], updates[|updates| - 1];
      ApplyShape(cs, front);
      assert forall i :: 0 <= i < |front| ==> front[i] == updates[i];
      SetShape(ApplyAll(cs, front), last);
      if Find(cs, last.kind).Some? {
        assert ApplyAll(cs, front)[IndexOf(cs, last.kind)].kind == last.kind;
      }
    }
  }

  /******* Normalisation *******/

  function Preserve(current: seq<Condition>, c: Condition): Condition {
    var stored := Find(current, c.kind);
    if stored.Some? && stored.value.status == c.status then WithTime(c, stored.value.lastTransitionTime) else c
  }

  function Normalise(current: seq<Condition>, desired: seq<Condition>): seq<Condition> {
    seq(|desired|, i requires 0 <= i < |desired| => Preserve(current, desired[i]))
  }

  lemma FindNormalise(current: seq<Condition>, desired: seq<Condition>, kind: ConditionType)
    ensures Find(Normalise(current, desired), kind) ==
            if Find(desired, kind).None? then None else Some(Preserve(current, Find(desired, kind).value))
  {
    var n := Normalise(current, desired);
    var i, j := IndexOf(desired, kind), IndexOf(n, kind);
    assert forall k :: 0 <= k < |desired| ==> n[k].kind == desired[k].kind;
    assert j < |n| ==> desired[j].kind == kind;
    assert i < |n| ==> n[i].kind == kind;
  }

  /** The condition list that a reconcile with these updates wants stored. */
  function Merge(cs: seq<Condition>, updates: seq<Condition>): seq<Condition> {
    Normalise(cs, ApplyAll(cs, updates))
  }

  /** A condition without an update is untouched. One with updates shows the last of them, and its
      transition time is the stored one exactly when the status survives, else one of the readings. */
  lemma FindMerge(cs: seq<Condition>, updates: seq<Condition>, kind: ConditionType)
    ensures LastFor(updates, kind).None? ==> Find(Merge(cs, updates), kind) == Find(cs, kind)
    ensures LastFor(updates, kind).Some? ==>
              var found := Find(Merge(cs, updates), kind);
              && found.Some?
              && SameButTime(found.value, LastFor(updates, kind).value)
              && (if Find(cs, kind).Some? && Find(cs, kind).value.status == found.value.status
                  then found.value.lastTransitionTime == Find(cs, kind).value.lastTransitionTime
                  else IsReading(updates, kind, found.value.lastTransitionTime))
  {
    FindApply(cs, updates, kind);
    FindNormalise(cs, ApplyAll(cs, updates), kind);
  }

  lemma MergeShape(cs: seq<Condition>, updates: seq<Condition>)
    requires Unique(cs)
    ensures Unique(Merge(cs, updates))
    ensures |cs| <= |Merge(cs, updates)|
    ensures forall i :: 0 <= i < |cs| ==> Merge(cs, updates)[i].kind == cs[i].kind
  {
    ApplyShape(cs, updates);
    var all := ApplyAll(cs, updates);
    assert forall i :: 0 <= i < |all| ==> Normalise(cs, all)[i].kind == all[i].kind;
  }

  /** Every update already shows in the list, times aside. */
  ghost predicate Reflects(cs: seq<Condition>, updates: seq<Condition>) {
    forall i :: 0 <= i < |updates| ==>
      && Find(cs, updates[i].kind).Some?
      && LastFor(updates, updates[i].kind).Some?
      && SameButTime(Find(cs, updates[i].kind).value, LastFor(updates, updates[i].kind).value)
  }

  lemma {:induction false} LastForIsUpdate(updates: seq<Condition>, kind: ConditionType)
    ensures LastFor(updates, kind).Some? ==> LastFor(updates, kind).value in updates && LastFor(updates, kind).value.kind == kind
    ensures LastFor(updates, kind).None? ==> forall i :: 0 <= i < |updates| ==> updates[i].kind != kind
  {
    if updates == [] {
    } else {
      LastForIsUpdate(updates[..|updates| - 1], kind);
    }
  }

  lemma FindAt(cs: seq<Condition>, i: nat)
    requires Unique(cs) && i < |cs|
    ensures Find(cs, cs[i].kind) == Some(cs[i])
  {
    var j := IndexOf(cs, cs[i].kind);
    assert j == i;
  }

  /** Updates the list already reflects leave it exactly as it is, whatever the clock says and even
      when a condition flaps on the way. */
  lemma MergeSettled(cs: seq<Condition>, updates: seq<Condition>)
    requires Unique(cs) && Reflects(cs, updates)
    ensures Merge(cs, updates) == cs
  {
    ApplyShape(cs, updates);
    var all, m := ApplyAll(cs, updates), Merge(cs, updates);
    assert |m| == |cs|;
    forall i | 0 <= i < |cs| ensures m[i] == cs[i] {
      var kind := cs[i].kind;
      MergeShape(cs, updates);
      FindAt(cs, i);
      FindAt(m, i);
      FindMerge(cs, updates, kind);
      LastForIsUpdate(updates, kind);
    }
  }

  /******* Persistence *******/

  const NANOS_PER_SECOND := 1_000_000_000

  /** The API server stores transition times with second precision. */
  function Truncate(t: Time): (second: Time)
    ensures t - NANOS_PER_SECOND < second <= t && second % NANOS_PER_SECOND == 0
  {
    t - t % NANOS_PER_SECOND
  }

  function Persist(cs: seq<Condition>): seq<Condition> {
    seq(|cs|, i requires 0 <= i < |cs| => WithTime(cs[i], Truncate(cs[i].lastTransitionTime)))
  }

  lemma FindPersist(cs: seq<Condition>, kind: ConditionType)
    ensures Find(Persist(cs), kind) ==
            if Find(cs, kind).None? then None
            else Some(WithTime(Find(cs, kind).value, Truncate(Find(cs, kind).value.lastTransitionTime)))
  {
    var p := Persist(cs);
    var i, j := IndexOf(cs, kind), IndexOf(p, kind);
    assert forall k :: 0 <= k < |cs| ==> p[k].kind == cs[k].kind;
    assert j < |p| ==> cs[j].kind == kind;
    assert i < |p| ==> p[i].kind == kind;
  }
}
