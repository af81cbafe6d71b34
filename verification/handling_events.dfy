/** Handling events and their history: the event types, the activity an event
    records, the most recent event of a history and the event factory. */
module HandlingEvents {
  import opened Wrappers
  import opened Shipping

  /** Go's `HandlingEventType int`. Values outside the named constants exist
      and are handled by every `switch` in the system. */
  newtype HandlingEventType = int

  /** The zero value of the type: an event that has not happened. */
  const NotHandled: HandlingEventType := 0
  const Load: HandlingEventType := 1
  const Unload: HandlingEventType := 2
  const Receive: HandlingEventType := 3
  const Claim: HandlingEventType := 4
  const Customs: HandlingEventType := 5

  /** What was (or is expected to be) done to a cargo, where, and on which
      voyage. */
  datatype HandlingActivity = HandlingActivity(
    eventType: HandlingEventType,
    location: UNLocode,
    voyageNumber: VoyageNumber)

  /** `HandlingActivity{}`: no activity at all. */
  const NoActivity := HandlingActivity(NotHandled, "", "")

  datatype HandlingEvent = HandlingEvent(trackingId: TrackingId, activity: HandlingActivity)

  /** `HandlingEvent{}`. */
  const NoEvent := HandlingEvent("", NoActivity)

  /** The events registered for one cargo, oldest first. */
  type HandlingHistory = seq<HandlingEvent>

  /** The last event of the history together with Go's error result: the zero
      event and an error when the history is empty. */
  function MostRecentlyCompletedEvent(h: HandlingHistory): (r: (HandlingEvent, Option<Error>))
    ensures r.1.None? <==> |h| > 0
    ensures |h| == 0 ==> r == (NoEvent, Some(ErrEmptyHistory))
    ensures |h| > 0 ==> r.0 in h && r.0 == h[|h| - 1]
  {
    if |h| == 0 then (NoEvent, Some(ErrEmptyHistory)) else (h[|h| - 1], None)
  }

  /** Appending an event makes it the most recently completed one, whatever
      came before. */
  lemma MostRecentIsLastAppended(h: HandlingHistory, e: HandlingEvent)
    ensures MostRecentlyCompletedEvent(h + [e]) == (e, None)
  {
  }

  /** `HandlingEventFactory.CreateHandlingEvent`: fails when the cargo
      repository does not know the tracking id and otherwise returns the zero
      event. The repository is any map keyed by tracking id; the times,
      voyage, location and type are accepted and not used. */
  function CreateHandlingEvent<C>(
    cargos: map<TrackingId, C>,
    registrationTime: Time,
    completionTime: Time,
    trackingId: TrackingId,
    voyageNumber: VoyageNumber,
    unLocode: UNLocode,
    eventType: HandlingEventType): (r: Result<HandlingEvent, Error>)
    ensures r.Failure? <==> trackingId !in cargos
    ensures r.Failure? ==> r.error == ErrCannotCreateHandlingEvent
    ensures r.Success? ==> r.value == NoEvent
  {
    if trackingId !in cargos then Failure(ErrCannotCreateHandlingEvent) else Success(NoEvent)
  }
}
