/** Facts about whole Event traces: what the sequence of Events of a run can look like. */
module EventTraces {
  import opened Wrappers
  import opened RuntimeApi
  import opened RuntimeResources
  import opened Conditions
  import opened DeploymentRollout
  import opened RuntimeStatus
  import opened StatusProperties
  import opened StatusRuns
  import opened RuntimeEvents

  /** errors.Join. */
  function Join(first: string, second: string): string {
    first + "\n" + second
  }

  /** The error a reconcile returns, if any: its own failure, a failed status write, or both. */
  function StepError(stored: Status, r: Reconcile): Option<string> {
    var writeError := if TargetOf(stored, r) != stored then r.writeError else None;
    if r.outcome.Failed? && writeError.Some? then Some(Join(r.outcome.error, writeError.value))
    else if r.outcome.Failed? then Some(r.outcome.error)
    else writeError
  }

  /** The Events of one reconcile: transitions after a successful write, then its error. */
  function StepEvents(stored: Status, r: Reconcile): seq<Event> {
    (if Writes(stored, r) then TransitionEvents(stored, Step(stored, r)) else [])
    + (if StepError(stored, r).Some? then [FailureEvent(StepError(stored, r).value)] else [])
  }

  function Trace(run: seq<Reconcile>): seq<Event> {
    if run == [] then []
    else Trace(run[..|run| - 1]) + StepEvents(StatusAfter(run[..|run| - 1]), run[|run| - 1])
  }

  ghost predicate Emits(events: seq<Event>, reason: EventReason) {
    exists i :: 0 <= i < |events| && events[i].reason == reason
  }

  lemma EmitsAny(a: seq<Event>, b: seq<Event>, c: seq<Event>, d: seq<Event>, e: seq<Event>, reason: EventReason)
    ensures Emits(a + b + c + d + e, reason) <==>
            Emits(a, reason) || Emits(b, reason) || Emits(c, reason) || Emits(d, reason) || Emits(e, reason)
  {
    hide Emits;
    EmitsConcat(a + b + c + d, e, reason);
    EmitsConcat(a + b + c, d, reason);
    EmitsConcat(a + b, c, reason);
    EmitsConcat(a, b, reason);
  }

  /** The Upgrading condition changed to this status and reason, between two valid images. */
  predicate EnteredUpgrade(previous: Status, current: Status, status: ConditionStatus, reason: Reason) {
    && Entered(previous, current, Upgrading, status)
    && Find(current.conditions, Upgrading).value.reason == reason
    && ValidUpgradeEventImages(previous.lastSuccessfulImage, current.desiredImage)
  }

  /** Exactly which status change emits which Event. */
  lemma TransitionEmits(previous: Status, current: Status, reason: EventReason)
    ensures Emits(TransitionEvents(previous, current), reason) <==>
            match reason
            case ConfigurationInvalidEvent => Entered(previous, current, ConfigurationValid, False)
            case DegradedEvent => Entered(previous, current, Degraded, True)
            case RecoveredEvent => Holds(previous, Degraded) && ConditionChanged(previous, current, Degraded) && !Holds(current, Degraded)
            case ProgressingEvent => Entered(previous, current, Progressing, True)
            case ReadyEvent => Entered(previous, current, Ready, True) && Find(current.conditions, Ready).value.reason != ScaledToZero
            case ScaledToZeroEvent => Entered(previous, current, Ready, True) && Find(current.conditions, Ready).value.reason == ScaledToZero
            case UpgradeStartedEvent => EnteredUpgrade(previous, current, True, UpgradeInProgress)
            case UpgradeCompletedEvent => EnteredUpgrade(previous, current, False, UpgradeComplete)
            case UpgradeFailedEvent => EnteredUpgrade(previous, current, False, UpgradeFailed)
            case ReconciliationFailedEvent => false
  {
    var a, b, c, d, e := ConfigurationEvents(previous, current), UpgradeEvents(previous, current),
      DegradedEvents(previous, current), ProgressingEvents(previous, current), ReadyEvents(previous, current);
    ConfigurationEmits(previous, current, reason);
    UpgradeEmits(previous, current, reason);
    DegradedEmits(previous, current, reason);
    ProgressingEmits(previous, current, reason);
    ReadyEmits(previous, current, reason);
    EmitsAny(a, b, c, d, e, reason);
    hide Find, Emits, Entered, EnteredUpgrade, ConditionChanged, ConfigurationEvents, UpgradeEvents, DegradedEvents,
      ProgressingEvents, ReadyEvents, StatusOf;
  }

  lemma ConfigurationEmits(previous: Status, current: Status, reason: EventReason)
    ensures Emits(ConfigurationEvents(previous, current), reason) <==>
            reason == ConfigurationInvalidEvent && Entered(previous, current, ConfigurationValid, False)
  {
    EmitsSingle(ConfigurationEvents(previous, current), reason);
    hide Emits, Entered;
  }

  lemma UpgradeEmits(previous: Status, current: Status, reason: EventReason)
    ensures Emits(UpgradeEvents(previous, current), reason) <==>
            || (reason == UpgradeStartedEvent && EnteredUpgrade(previous, current, True, UpgradeInProgress))
            || (reason == UpgradeCompletedEvent && EnteredUpgrade(previous, current, False, UpgradeComplete))
            || (reason == UpgradeFailedEvent && EnteredUpgrade(previous, current, False, UpgradeFailed))
  {
    hide Emits, Find;
    EmitsSingle(UpgradeEvents(previous, current), reason);
  }

  lemma DegradedEmits(previous: Status, current: Status, reason: EventReason)
    ensures Emits(DegradedEvents(previous, current), reason) <==>
            || (reason == DegradedEvent && Entered(previous, current, Degraded, True))
            || (&& reason == RecoveredEvent
                && Holds(previous, Degraded) && ConditionChanged(previous, current, Degraded) && !Holds(current, Degraded))
  {
    EmitsSingle(DegradedEvents(previous, current), reason);
    hide Emits, Find;
  }

  lemma ProgressingEmits(previous: Status, current: Status, reason: EventReason)
    ensures Emits(ProgressingEvents(previous, current), reason) <==>
            reason == ProgressingEvent && Entered(previous, current, Progressing, True)
  {
    EmitsSingle(ProgressingEvents(previous, current), reason);
    hide Emits, Entered;
  }

  lemma ReadyEmits(previous: Status, current: Status, reason: EventReason)
    ensures Emits(ReadyEvents(previous, current), reason) <==>
            && Entered(previous, current, Ready, True)
            && reason == if Find(current.conditions, Ready).value.reason == ScaledToZero then ScaledToZeroEvent else ReadyEvent
  {
    EmitsSingle(ReadyEvents(previous, current), reason);
    hide Emits, Find;
  }

  lemma EmitsConcat(a: seq<Event>, b: seq<Event>, reason: EventReason)
    ensures Emits(a + b, reason) <==> Emits(a, reason) || Emits(b, reason)
  {
    if Emits(a, reason) {
      var i :| 0 <= i < |a| && a[i].reason == reason;
      assert (a + b)[i] == a[i];
    }
    if Emits(b, reason) {
      var i :| 0 <= i < |b| && b[i].reason == reason;
      assert (a + b)[|a| + i] == b[i];
    }
  }

  lemma EmitsSingle(events: seq<Event>, reason: EventReason)
    requires |events| <= 1
    ensures Emits(events, reason) <==> events != [] && events[0].reason == reason
  {
  }

  /** The condition an Event reports on. */
  function Subject(reason: EventReason): ConditionType {
    match reason
    case ConfigurationInvalidEvent => ConfigurationValid
    case DegradedEvent => Degraded
    case RecoveredEvent => Degraded
    case ProgressingEvent => Progressing
    case ReadyEvent => Ready
    case ScaledToZeroEvent => Ready
    case _ => Upgrading
  }

  predicate IsUpgradeEvent(reason: EventReason) {
    reason in {UpgradeStartedEvent, UpgradeCompletedEvent, UpgradeFailedEvent}
  }

  predicate IsWarning(reason: EventReason) {
    reason in {ConfigurationInvalidEvent, DegradedEvent, UpgradeFailedEvent, ReconciliationFailedEvent}
  }

  /** What an Event says: upgrade Events name the image left and the image desired, the others
      repeat the message of the condition they report on; bad news are warnings. */
  ghost predicate SaysSo(event: Event, previous: Status, current: Status) {
    && event.reason != ReconciliationFailedEvent
    && (event.kind == Warning <==> IsWarning(event.reason))
    && Find(current.conditions, Subject(event.reason)).Some?
    && event.note == (if IsUpgradeEvent(event.reason) then Images(previous.lastSuccessfulImage, current.desiredImage)
                      else Told(Find(current.conditions, Subject(event.reason)).value.message))
  }

  lemma RecordersSaySo(previous: Status, current: Status)
    ensures forall e :: e in ConfigurationEvents(previous, current) ==> SaysSo(e, previous, current)
    ensures forall e :: e in UpgradeEvents(previous, current) ==> SaysSo(e, previous, current)
    ensures forall e :: e in DegradedEvents(previous, current) ==> SaysSo(e, previous, current)
    ensures forall e :: e in ProgressingEvents(previous, current) ==> SaysSo(e, previous, current)
    ensures forall e :: e in ReadyEvents(previous, current) ==> SaysSo(e, previous, current)
  {
    hide Find;
  }

  /** Every transition Event says what it is about. */
  lemma TransitionEventsSaySo(previous: Status, current: Status, event: Event)
    requires event in TransitionEvents(previous, current)
    ensures SaysSo(event, previous, current)
  {
    hide SaysSo, ConfigurationEvents, UpgradeEvents, DegradedEvents, ProgressingEvents, ReadyEvents;
    RecordersSaySo(previous, current);
  }

  /******* One reconcile *******/

  /** One reconcile emits at most one of RuntimeReady/RuntimeScaledToZero, RuntimeProgressing and
      RuntimeDegraded. */
  lemma OneHealthEventPerStep(stored: Status, r: Reconcile)
    ensures var events := TransitionEvents(stored, PersistStatus(TargetOf(stored, r)));
            && !(Emits(events, DegradedEvent) && Emits(events, ProgressingEvent))
            && !(Emits(events, DegradedEvent) && (Emits(events, ReadyEvent) || Emits(events, ScaledToZeroEvent)))
            && !(Emits(events, ProgressingEvent) && (Emits(events, ReadyEvent) || Emits(events, ScaledToZeroEvent)))
            && !(Emits(events, ReadyEvent) && Emits(events, ScaledToZeroEvent))
  {
    var next := PersistStatus(TargetOf(stored, r));
    TargetIsExclusive(RuntimeAt(stored, r), r.observation, r.outcome, r.now);
    PersistedFind(TargetOf(stored, r), Ready);
    PersistedFind(TargetOf(stored, r), Progressing);
    PersistedFind(TargetOf(stored, r), Degraded);
    hide Target, PersistStatus, Find;
    EnteredHolds(stored, next);
    TransitionEmits(stored, next, DegradedEvent);
    TransitionEmits(stored, next, ProgressingEvent);
    TransitionEmits(stored, next, ReadyEvent);
    TransitionEmits(stored, next, ScaledToZeroEvent);
    hide Emits, TransitionEvents, StatusOf, Entered;
  }

  lemma EnteredHolds(previous: Status, current: Status)
    ensures Entered(previous, current, Degraded, True) ==> Holds(current, Degraded)
    ensures Entered(previous, current, Progressing, True) ==> Holds(current, Progressing)
    ensures Entered(previous, current, Ready, True) ==> Holds(current, Ready)
  {
  }

  /** No transition Event without a written status. */
  lemma SilentWithoutWrite(stored: Status, r: Reconcile, i: nat)
    requires !Writes(stored, r) && i < |StepEvents(stored, r)|
    ensures StepEvents(stored, r)[i].reason == ReconciliationFailedEvent
    ensures Step(stored, r) == stored
  {
  }

  /******* Degraded and Recovered alternate *******/

  /** Every RuntimeRecovered is preceded by a RuntimeDegraded with no RuntimeRecovered in between. */
  ghost predicate Alternates(trace: seq<Event>) {
    forall j :: 0 <= j < |trace| && trace[j].reason == RecoveredEvent ==> DegradedSince(trace[..j])
  }

  /** The trace contains a RuntimeDegraded that no RuntimeRecovered follows. */
  ghost predicate DegradedSince(trace: seq<Event>) {
    exists k :: 0 <= k < |trace| && trace[k].reason == DegradedEvent
             && forall i :: k < i < |trace| ==> trace[i].reason != RecoveredEvent
  }

  lemma DegradedSinceExtends(trace: seq<Event>, more: seq<Event>)
    requires DegradedSince(trace) && !Emits(more, RecoveredEvent)
    ensures DegradedSince(trace + more)
  {
    var k :| 0 <= k < |trace| && trace[k].reason == DegradedEvent && forall i :: k < i < |trace| ==> trace[i].reason != RecoveredEvent;
    var all := trace + more;
    assert all[k] == trace[k];
    forall i | k < i < |all| ensures all[i].reason != RecoveredEvent {
      if i >= |trace| { assert all[i] == more[i - |trace|]; }
    }
  }

  lemma DegradedSinceStarts(trace: seq<Event>, more: seq<Event>)
    requires Emits(more, DegradedEvent) && !Emits(more, RecoveredEvent)
    ensures DegradedSince(trace + more)
  {
    var k :| 0 <= k < |more| && more[k].reason == DegradedEvent;
    var all := trace + more;
    assert all[|trace| + k] == more[k];
    forall i | |trace| + k < i < |all| ensures all[i].reason != RecoveredEvent {
      assert all[i] == more[i - |trace|];
    }
  }

  /** At most one RuntimeRecovered per reconcile, and only while the stored status is degraded. */
  ghost predicate OneRecovered(events: seq<Event>) {
    forall i, j :: 0 <= i < j < |events| ==> !(events[i].reason == RecoveredEvent && events[j].reason == RecoveredEvent)
  }

  lemma AlternatesAppends(trace: seq<Event>, more: seq<Event>)
    requires Alternates(trace) && OneRecovered(more)
    requires Emits(more, RecoveredEvent) ==> DegradedSince(trace)
    ensures Alternates(trace + more)
  {
    var all := trace + more;
    forall j | 0 <= j < |all| && all[j].reason == RecoveredEvent ensures DegradedSince(all[..j]) {
      if j < |trace| {
        assert all[..j] == trace[..j];
      } else {
        var m := j - |trace|;
        assert more[m] == all[j];
        assert all[..j] == trace + more[..m];
        DegradedSinceExtends(trace, more[..m]);
      }
    }
  }

  /** The recorder an Event comes from, in the order in which they run. */
  function Turn(reason: EventReason): nat {
    match reason
    case ConfigurationInvalidEvent => 0
    case DegradedEvent => 2
    case RecoveredEvent => 2
    case ProgressingEvent => 3
    case ReadyEvent => 4
    case ScaledToZeroEvent => 4
    case ReconciliationFailedEvent => 5
    case _ => 1
  }

  ghost predicate InTurn(events: seq<Event>) {
    forall i, j :: 0 <= i < j < |events| ==> Turn(events[i].reason) < Turn(events[j].reason)
  }

  /** At most one Event, of that recorder. */
  ghost predicate OneAt(events: seq<Event>, turn: nat) {
    |events| <= 1 && (events != [] ==> Turn(events[0].reason) == turn)
  }

  lemma InTurnAppends(events: seq<Event>, more: seq<Event>, turn: nat)
    requires InTurn(events) && OneAt(more, turn) && forall i :: 0 <= i < |events| ==> Turn(events[i].reason) < turn
    ensures InTurn(events + more) && forall i :: 0 <= i < |events + more| ==> Turn((events + more)[i].reason) < turn + 1
  {
  }

  lemma RecordersTakeTurns(previous: Status, current: Status)
    ensures OneAt(ConfigurationEvents(previous, current), 0) && OneAt(UpgradeEvents(previous, current), 1)
    ensures OneAt(DegradedEvents(previous, current), 2) && OneAt(ProgressingEvents(previous, current), 3)
    ensures OneAt(ReadyEvents(previous, current), 4)
  {
    hide Find;
  }

  /** The Events of one write come one per recorder at most, in the recorders' order: configuration,
      upgrade, degradation, progress, readiness. */
  lemma TransitionEventsInTurn(previous: Status, current: Status)
    ensures InTurn(TransitionEvents(previous, current))
    ensures forall i :: 0 <= i < |TransitionEvents(previous, current)| ==> Turn(TransitionEvents(previous, current)[i].reason) < 5
  {
    hide InTurn, OneAt, Turn, ConfigurationEvents, UpgradeEvents, DegradedEvents, ProgressingEvents, ReadyEvents;
    RecordersTakeTurns(previous, current);
    var a, b, c, d, e := ConfigurationEvents(previous, current), UpgradeEvents(previous, current),
      DegradedEvents(previous, current), ProgressingEvents(previous, current), ReadyEvents(previous, current);
    assert InTurn([]) by { NoneInTurn(); }
    assert [] + a == a;
    InTurnAppends([], a, 0);
    InTurnAppends(a, b, 1);
    InTurnAppends(a + b, c, 2);
    InTurnAppends(a + b + c, d, 3);
    InTurnAppends(a + b + c + d, e, 4);
  }

  lemma NoneInTurn()
    ensures InTurn([])
  {
  }

  lemma RecoveredOnce(previous: Status, current: Status)
    ensures OneRecovered(TransitionEvents(previous, current))
  {
    hide TransitionEvents;
    TransitionEventsInTurn(previous, current);
  }

  /** What one reconcile adds to the trace, in terms of the Degraded condition. */
  lemma DegradedStep(stored: Status, r: Reconcile)
    ensures var events := StepEvents(stored, r);
            && OneRecovered(events)
            && (Emits(events, RecoveredEvent) ==> Holds(stored, Degraded) && !Holds(Step(stored, r), Degraded))
            && (Holds(Step(stored, r), Degraded) && !Emits(events, DegradedEvent) ==> Holds(stored, Degraded))
  {
    var next := Step(stored, r);
    var failure := if StepError(stored, r).Some? then [FailureEvent(StepError(stored, r).value)] else [];
    hide Step, Writes, StepError, TransitionEvents;
    EmitsSingle(failure, RecoveredEvent);
    EmitsSingle(failure, DegradedEvent);
    if Writes(stored, r) {
      var events := TransitionEvents(stored, next);
      TransitionEmits(stored, next, DegradedEvent);
      TransitionEmits(stored, next, RecoveredEvent);
      RecoveredOnce(stored, next);
      EmitsConcat(events, failure, RecoveredEvent);
      EmitsConcat(events, failure, DegradedEvent);
    } else {
      assert next == stored by { SilentWithoutWriteStep(stored, r); }
      assert StepEvents(stored, r) == failure;
    }
  }

  lemma SilentWithoutWriteStep(stored: Status, r: Reconcile)
    requires !Writes(stored, r)
    ensures Step(stored, r) == stored
  {
  }

  /** In every run from the empty status, RuntimeDegraded and RuntimeRecovered alternate properly;
      and while the stored status is degraded, the trace says so. */
  lemma {:induction false} DegradedRecoveredAlternate(run: seq<Reconcile>)
    ensures Alternates(Trace(run))
    ensures Holds(StatusAfter(run), Degraded) ==> DegradedSince(Trace(run))
  {
    if run == [] {
    } else {
      var front, r := run[..|run| - 1], run[|run| - 1];
      hide Alternates, DegradedSince, OneRecovered, Emits, Step, StepEvents, Holds;
      DegradedRecoveredAlternate(front);
      var events := StepEvents(StatusAfter(front), r);
      DegradedStep(StatusAfter(front), r);
      AlternatesAppends(Trace(front), events);
      if Holds(StatusAfter(run), Degraded) {
        if Emits(events, DegradedEvent) {
          DegradedSinceStarts(Trace(front), events);
        } else {
          DegradedSinceExtends(Trace(front), events);
        }
      }
    }
  }

  /******* Upgrade Events match the images *******/

  /** Every announced upgrade reason names two different images, and the last successful image
      moves off a non-empty one exactly when the upgrade is reported complete. */
  lemma AnnouncedRow(spec: Spec, deployment: Option<Deployment>, last: string, tracked: bool)
    ensures var desired, next := RuntimeImage(spec.image), NextLastSuccessful(spec, deployment, last);
            var row := UpgradeRow(spec, deployment, last, tracked);
            && (row.None? ==> next == last)
            && (row.Some? && UpgradeAnnouncement(row.value.reason).Some? ==>
                last != "" && last != desired && UpgradeAnnouncement(row.value.reason).value.2 == row.value.status)
            && (row.Some? && row.value.reason == UpgradeComplete <==> last != "" && next != last)
            && (row.Some? && row.value.reason == UpgradeComplete ==> next == desired)
  {
    hide RuntimeImage, ObserveRollout, CurrentImage;
  }

  /** RuntimeUpgradeCompleted is emitted exactly when the write moves a non-empty
      lastSuccessfulImage and the stored condition did not already report a completed upgrade. */
  lemma UpgradeCompletedIff(stored: Status, r: Reconcile)
    requires SchemaValid(r) && Writes(stored, r)
    ensures var next := Step(stored, r);
            var before := Find(stored.conditions, Upgrading);
            Emits(TransitionEvents(stored, next), UpgradeCompletedEvent) <==>
            && stored.lastSuccessfulImage != ""
            && next.lastSuccessfulImage != stored.lastSuccessfulImage
            && !(before.Some? && before.value.reason == UpgradeComplete && before.value.status == False)
  {
    hide Find, Step, Writes, RuntimeImage, UpgradeRow, NextLastSuccessful, TransitionEvents, Emits;
    WrittenUpgrading(stored, r);
    AnnouncedRow(r.spec, r.observation.deployment, stored.lastSuccessfulImage, Find(stored.conditions, Upgrading).Some?);
    TransitionEmits(stored, Step(stored, r), UpgradeCompletedEvent);
  }

  /** Every RuntimeUpgradeCompleted names exactly the old and the new successful image. */
  lemma CompletionNamesImages(stored: Status, r: Reconcile, i: nat)
    requires SchemaValid(r) && Writes(stored, r)
    requires i < |TransitionEvents(stored, Step(stored, r))|
    requires TransitionEvents(stored, Step(stored, r))[i].reason == UpgradeCompletedEvent
    ensures TransitionEvents(stored, Step(stored, r))[i].note ==
            Images(stored.lastSuccessfulImage, Step(stored, r).lastSuccessfulImage)
  {
    hide Find, Step, Writes, RuntimeImage, UpgradeRow, NextLastSuccessful, TransitionEvents;
    var next := Step(stored, r);
    var event := TransitionEvents(stored, next)[i];
    WrittenUpgrading(stored, r);
    AnnouncedRow(r.spec, r.observation.deployment, stored.lastSuccessfulImage, Find(stored.conditions, Upgrading).Some?);
    TransitionEventsSaySo(stored, next, event);
    assert Emits(TransitionEvents(stored, next), UpgradeCompletedEvent);
    TransitionEmits(stored, next, UpgradeCompletedEvent);
  }

  /** A changed Upgrading condition with one of the three upgrade reasons is always announced: its
      images are never rejected. */
  lemma UpgradeChangesAreAnnounced(stored: Status, r: Reconcile)
    requires SchemaValid(r) && Writes(stored, r)
    ensures var next := Step(stored, r);
            var after := Find(next.conditions, Upgrading);
            ConditionChanged(stored, next, Upgrading) && UpgradeAnnouncement(after.value.reason).Some? ==>
            && ValidUpgradeEventImages(stored.lastSuccessfulImage, next.desiredImage)
            && Emits(TransitionEvents(stored, next), UpgradeAnnouncement(after.value.reason).value.1)
  {
    hide Find, Step, Writes, RuntimeImage, UpgradeRow, NextLastSuccessful, TransitionEvents, Emits;
    WrittenUpgrading(stored, r);
    AnnouncedRow(r.spec, r.observation.deployment, stored.lastSuccessfulImage, Find(stored.conditions, Upgrading).Some?);
    var next := Step(stored, r);
    TransitionEmits(stored, next, UpgradeStartedEvent);
    TransitionEmits(stored, next, UpgradeCompletedEvent);
    TransitionEmits(stored, next, UpgradeFailedEvent);
  }

  /** Over runs from the empty status, the exception is just the reason: a completed upgrade
      directly following a completed upgrade is not announced again. */
  lemma UpgradeCompletedInRuns(run: seq<Reconcile>, r: Reconcile)
    requires SchemaValidRun(run) && SchemaValid(r) && Writes(StatusAfter(run), r)
    ensures var stored, next := StatusAfter(run), Step(StatusAfter(run), r);
            var before := Find(stored.conditions, Upgrading);
            Emits(TransitionEvents(stored, next), UpgradeCompletedEvent) <==>
            && stored.lastSuccessfulImage != ""
            && next.lastSuccessfulImage != stored.lastSuccessfulImage
            && !(before.Some? && before.value.reason == UpgradeComplete)
  {
    hide Step, Writes, StatusAfter, Coherent, TransitionEvents, Unique, Truncated, Find, Emits;
    RunInvariant(run);
    UpgradeCompletedIff(StatusAfter(run), r);
  }

  /** The exception is real: deploy an image, complete an upgrade, lose the status write that would
      have announced the next one, and that next upgrade completes without its Event. */
  lemma CompletionEventDropped(deploy: Reconcile, start: Reconcile, complete: Reconcile, lost: Reconcile, next: Reconcile)
    requires SchemaValid(deploy) && SchemaValid(start) && SchemaValid(next)
    requires deploy.writeError.None? && start.writeError.None? && complete.writeError.None? && next.writeError.None?
    requires ImageRolledOut(deploy.spec, deploy.observation.deployment)
    requires start.spec == complete.spec && RuntimeImage(start.spec.image) != RuntimeImage(deploy.spec.image)
    requires ObserveRollout(start.spec, start.observation.deployment) == RolloutProgressing
    requires ImageRolledOut(complete.spec, complete.observation.deployment)
    requires lost.spec == next.spec && RuntimeImage(next.spec.image) != RuntimeImage(start.spec.image)
    requires lost.writeError.Some? && ObserveRollout(lost.spec, lost.observation.deployment) == RolloutProgressing
    requires ImageRolledOut(next.spec, next.observation.deployment)
    ensures var stored := StatusAfter([deploy, start, complete] + [lost]);
            && Writes(stored, next)
            && stored.lastSuccessfulImage == RuntimeImage(start.spec.image)
            && Step(stored, next).lastSuccessfulImage == RuntimeImage(next.spec.image)
            && !Emits(TransitionEvents(stored, Step(stored, next)), UpgradeCompletedEvent)
  {
    var one := Step(EMPTY_STATUS, deploy);
    var two := Step(one, start);
    var three := Step(two, complete);
    ThreeSteps(deploy, start, complete);
    StatusAfterAppend([deploy, start, complete], lost);
    assert !Writes(three, lost);
    SilentWithoutWriteStep(three, lost);
    hide Step, StatusAfter, Writes, RuntimeImage, ObserveRollout, CurrentImage, TransitionEvents, Emits;
    ChangeIsWritten(EMPTY_STATUS, deploy);
    WrittenUpgrading(EMPTY_STATUS, deploy);
    ChangeIsWritten(one, start);
    WrittenUpgrading(one, start);
    ChangeIsWritten(two, complete);
    WrittenUpgrading(two, complete);
    ChangeIsWritten(three, next);
    WrittenUpgrading(three, next);
    UpgradeCompletedIff(three, next);
    hide Find;
  }
}
