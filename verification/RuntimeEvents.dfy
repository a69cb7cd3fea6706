/** Kubernetes Events as a function of the previous and the current status. */
module RuntimeEvents {
  import opened Wrappers
  import opened RuntimeApi
  import opened Conditions

  datatype EventType = Normal | Warning

  datatype EventReason =
    | ConfigurationInvalidEvent | ReconciliationFailedEvent
    | DegradedEvent | RecoveredEvent | ProgressingEvent | ReadyEvent | ScaledToZeroEvent
    | UpgradeStartedEvent | UpgradeCompletedEvent | UpgradeFailedEvent

  datatype EventAction = ReconcileRuntime | ValidateConfiguration | ObserveRuntime | UpgradeRuntime

  datatype Note = Told(message: Message) | Images(source: string, destination: string) | Error(text: string)

  datatype Event = Event(kind: EventType, reason: EventReason, action: EventAction, note: Note)

  /******* Specification *******/

  predicate ConditionChanged(previous: Status, current: Status, kind: ConditionType) {
    var before, after := Find(previous.conditions, kind), Find(current.conditions, kind);
    && after.Some?
    && (before.None? || before.value.status != after.value.status || before.value.reason != after.value.reason)
  }

  /** The condition changed its status or reason and now has status `status`. */
  predicate Entered(previous: Status, current: Status, kind: ConditionType, status: ConditionStatus) {
    ConditionChanged(previous, current, kind) && Find(current.conditions, kind).value.status == status
  }

  function NoteOf(current: Status, kind: ConditionType): Note
    requires Find(current.conditions, kind).Some?
  {
    Told(Find(current.conditions, kind).value.message)
  }

  function ConfigurationEvents(previous: Status, current: Status): seq<Event> {
    if Entered(previous, current, ConfigurationValid, False)
    then [Event(Warning, ConfigurationInvalidEvent, ValidateConfiguration, NoteOf(current, ConfigurationValid))]
    else []
  }

  function DegradedEvents(previous: Status, current: Status): seq<Event> {
    var was := Find(previous.conditions, Degraded);
    if !ConditionChanged(previous, current, Degraded) then []
    else if Entered(previous, current, Degraded, True)
    then [Event(Warning, DegradedEvent, ObserveRuntime, NoteOf(current, Degraded))]
    else if was.Some? && was.value.status == True
    then [Event(Normal, RecoveredEvent, ObserveRuntime, NoteOf(current, Degraded))]
    else []
  }

  function ProgressingEvents(previous: Status, current: Status): seq<Event> {
    if Entered(previous, current, Progressing, True)
    then [Event(Normal, ProgressingEvent, ReconcileRuntime, NoteOf(current, Progressing))]
    else []
  }

  function ReadyEvents(previous: Status, current: Status): seq<Event> {
    if Entered(previous, current, Ready, True) then
      var reason := if Find(current.conditions, Ready).value.reason == ScaledToZero then ScaledToZeroEvent else ReadyEvent;
      [Event(Normal, reason, ObserveRuntime, NoteOf(current, Ready))]
    else []
  }

  predicate ValidUpgradeEventImages(source: string, destination: string) {
    source != "" && destination != "" && source != destination
  }

  /** The Event that announces an Upgrading reason, with the condition status it belongs to. */
  function UpgradeAnnouncement(reason: Reason): Option<(EventType, EventReason, ConditionStatus)> {
    match reason
    case UpgradeInProgress => Some((Normal, UpgradeStartedEvent, True))
    case UpgradeComplete => Some((Normal, UpgradeCompletedEvent, False))
    case UpgradeFailed => Some((Warning, UpgradeFailedEvent, False))
    case _ => None
  }

  function UpgradeEvents(previous: Status, current: Status): seq<Event> {
    if !ConditionChanged(previous, current, Upgrading) then []
    else
      var c := Find(current.conditions, Upgrading).value;
      var announcement := UpgradeAnnouncement(c.reason);
      if && announcement.Some? && announcement.value.2 == c.status
         && ValidUpgradeEventImages(previous.lastSuccessfulImage, current.desiredImage)
      then [Event(announcement.value.0, announcement.value.1, UpgradeRuntime,
                  Images(previous.lastSuccessfulImage, current.desiredImage))]
      else []
  }

  function TransitionEvents(previous: Status, current: Status): seq<Event> {
    ConfigurationEvents(previous, current)
    + UpgradeEvents(previous, current)
    + DegradedEvents(previous, current)
    + ProgressingEvents(previous, current)
    + ReadyEvents(previous, current)
  }

  function FailureEvent(error: string): Event {
    Event(Warning, ReconciliationFailedEvent, ReconcileRuntime, Error(error))
  }

  /******* The recorders as written *******/

  class Recorder {
    var events: seq<Event>

    constructor ()
      ensures events == []
    {
      events := [];
    }

    method Eventf(kind: EventType, reason: EventReason, action: EventAction, note: Note)
      modifies this
      ensures events == old(events) + [Event(kind, reason, action, note)]
    {
      events := events + [Event(kind, reason, action, note)];
    }

    method RecordConfigurationTransition(previous: Status, current: Status)
      modifies this
      ensures events == old(events) + ConfigurationEvents(previous, current)
    {
      if !ConditionChanged(previous, current, ConfigurationValid) {
        return;
      }
      var condition := Find(current.conditions, ConfigurationValid);
      if condition.None? || condition.value.status != False {
        return;
      }
      Eventf(Warning, ConfigurationInvalidEvent, ValidateConfiguration, Told(condition.value.message));
    }

    method RecordDegradedTransition(previous: Status, current: Status)
      modifies this
      ensures events == old(events) + DegradedEvents(previous, current)
    {
      if !ConditionChanged(previous, current, Degraded) {
        return;
      }
      var condition := Find(current.conditions, Degraded);
      if condition.value.status == True {
        Eventf(Warning, DegradedEvent, ObserveRuntime, Told(condition.value.message));
        return;
      }
      var previousCondition := Find(previous.conditions, Degraded);
      if previousCondition.None? || previousCondition.value.status != True {
        return;
      }
      Eventf(Normal, RecoveredEvent, ObserveRuntime, Told(condition.value.message));
    }

    method RecordProgressingTransition(previous: Status, current: Status)
      modifies this
      ensures events == old(events) + ProgressingEvents(previous, current)
    {
      if !ConditionChanged(previous, current, Progressing) {
        return;
      }
      var condition := Find(current.conditions, Progressing);
      if condition.None? || condition.value.status != True {
        return;
      }
      Eventf(Normal, ProgressingEvent, ReconcileRuntime, Told(condition.value.message));
    }

    method RecordReadyTransition(previous: Status, current: Status)
      modifies this
      ensures events == old(events) + ReadyEvents(previous, current)
    {
      if !ConditionChanged(previous, current, Ready) {
        return;
      }
      var condition := Find(current.conditions, Ready);
      if condition.None? || condition.value.status != True {
        return;
      }
      var reason := ReadyEvent;
      if condition.value.reason == ScaledToZero {
        reason := ScaledToZeroEvent;
      }
      Eventf(Normal, reason, ObserveRuntime, Told(condition.value.message));
    }

    method RecordUpgradeTransition(previous: Status, current: Status)
      modifies this
      ensures events == old(events) + UpgradeEvents(previous, current)
    {
      if !ConditionChanged(previous, current, Upgrading) {
        return;
      }
      var condition := Find(current.conditions, Upgrading);
      var sourceImage, destinationImage := previous.lastSuccessfulImage, current.desiredImage;
      match condition.value.reason {
        case UpgradeInProgress =>
          if condition.value.status != True || !ValidUpgradeEventImages(sourceImage, destinationImage) {
            return;
          }
          Eventf(Normal, UpgradeStartedEvent, UpgradeRuntime, Images(sourceImage, destinationImage));
        case UpgradeComplete =>
          if condition.value.status != False || !ValidUpgradeEventImages(sourceImage, destinationImage) {
            return;
          }
          Eventf(Normal, UpgradeCompletedEvent, UpgradeRuntime, Images(sourceImage, destinationImage));
        case UpgradeFailed =>
          if condition.value.status != False || !ValidUpgradeEventImages(sourceImage, destinationImage) {
            return;
          }
          Eventf(Warning, UpgradeFailedEvent, UpgradeRuntime, Images(sourceImage, destinationImage));
        case _ =>
      }
    }

    method RecordStatusTransitionEvents(previous: Status, current: Status)
      modifies this
      ensures events == old(events) + TransitionEvents(previous, current)
    {
      hide ConfigurationEvents, UpgradeEvents, DegradedEvents, ProgressingEvents, ReadyEvents;
      RecordConfigurationTransition(previous, current);
      RecordUpgradeTransition(previous, current);
      RecordDegradedTransition(previous, current);
      RecordProgressingTransition(previous, current);
      RecordReadyTransition(previous, current);
    }

    method RecordReconciliationFailure(error: string)
      modifies this
      ensures events == old(events) + [FailureEvent(error)]
    {
      Eventf(Warning, ReconciliationFailedEvent, ReconcileRuntime, Error(error));
    }
  }
}
