/** The handling use case: validating and registering a handling event,
    storing it, and then telling the event handler that the cargo was
    handled. The default handler inspects the cargo. */
module HandlingService {
  import opened Wrappers
  import opened Shipping
  import opened HandlingEvents
  import opened Deliveries
  import opened Cargos
  import CargoRepository
  import HandlingEventRepository
  import Inspection

  /** `MakeHandlingEvent` of some handling event factory: registration time,
      completion time, tracking id, voyage, location and type to an event or
      an error. */
  type Factory = (Time, Time, TrackingId, VoyageNumber, UNLocode, HandlingEventType) -> Result<HandlingEvent, Error>

  /** The arguments the service refuses before calling the factory. */
  predicate InvalidArguments(completed: Time, id: TrackingId, loc: UNLocode, eventType: HandlingEventType) {
    IsZero(completed) || id == "" || loc == "" || eventType == NotHandled
  }

  /** Registers an event completed at `completed`; `now` is the registration
      time. Invalid arguments and factory errors are returned with nothing
      stored and no one notified. Otherwise the factory's event is appended
      to its cargo's history and then handed to the event handler, whose log
      grows by exactly that event. The error result is `Some` on failure. */
  function RegisterHandlingEvent(
    events: HandlingEventRepository.Repo, handled: seq<HandlingEvent>, factory: Factory, now: Time,
    completed: Time, id: TrackingId, voyageNumber: VoyageNumber, loc: UNLocode, eventType: HandlingEventType):
    (r: (HandlingEventRepository.Repo, seq<HandlingEvent>, Option<Error>))
    ensures InvalidArguments(completed, id, loc, eventType) ==> r == (events, handled, Some(ErrInvalidArgument))
    ensures !InvalidArguments(completed, id, loc, eventType) ==>
      match factory(now, completed, id, voyageNumber, loc, eventType)
      case Failure(err) => r == (events, handled, Some(err))
      case Success(e) =>
        && r.2.None?
        && r.1 == handled + [e]
        && HandlingEventRepository.QueryHandlingHistory(r.0, e.trackingId) ==
             HandlingEventRepository.QueryHandlingHistory(events, e.trackingId) + [e]
        && forall other :: other != e.trackingId ==>
             HandlingEventRepository.QueryHandlingHistory(r.0, other) ==
             HandlingEventRepository.QueryHandlingHistory(events, other)
  {
    if InvalidArguments(completed, id, loc, eventType) then (events, handled, Some(ErrInvalidArgument))
    else match factory(now, completed, id, voyageNumber, loc, eventType)
      case Failure(err) => (events, handled, Some(err))
      case Success(e) => (HandlingEventRepository.Store(events, e), handled + [e], None)
  }

  /** The default event handler: inspects the cargo the event is about. */
  function CargoWasHandled(
    cargos: CargoRepository.Repo, events: HandlingEventRepository.Repo,
    log: seq<Inspection.Notification>, e: HandlingEvent): (r: (CargoRepository.Repo, seq<Inspection.Notification>))
    ensures r == Inspection.InspectCargo(cargos, events, log, e.trackingId)
    ensures e.trackingId !in cargos ==> r == (cargos, log)
  {
    Inspection.InspectCargo(cargos, events, log, e.trackingId)
  }

  /** Registration wired to the default handler: every event the handler
      receives is inspected against the repository as it is after the store. */
  function RegisterAndInspect(
    cargos: CargoRepository.Repo, events: HandlingEventRepository.Repo, log: seq<Inspection.Notification>,
    factory: Factory, now: Time,
    completed: Time, id: TrackingId, voyageNumber: VoyageNumber, loc: UNLocode, eventType: HandlingEventType):
    (r: (CargoRepository.Repo, HandlingEventRepository.Repo, seq<Inspection.Notification>, Option<Error>))
    ensures r.3.Some? ==> r.0 == cargos && r.1 == events && r.2 == log
  {
    var (events', handled, err) := RegisterHandlingEvent(events, [], factory, now, completed, id, voyageNumber, loc, eventType);
    if |handled| == 1 then
      var (cargos', log') := CargoWasHandled(cargos, events', log, handled[0]);
      (cargos', events', log', err)
    else (cargos, events', log, err)
  }

  /** Because the event is stored before the handler runs, inspecting after
      a successful registration sees the new event as the cargo's last one. */
  lemma StoreBeforeNotify(
    cargos: CargoRepository.Repo, events: HandlingEventRepository.Repo, log: seq<Inspection.Notification>,
    factory: Factory, now: Time,
    completed: Time, id: TrackingId, voyageNumber: VoyageNumber, loc: UNLocode, eventType: HandlingEventType)
    requires CargoRepository.KeyedById(cargos)
    ensures
      var r := RegisterAndInspect(cargos, events, log, factory, now, completed, id, voyageNumber, loc, eventType);
      var made := factory(now, completed, id, voyageNumber, loc, eventType);
      r.3.None? && made.Success? && made.value.trackingId in cargos ==>
        var c := cargos[made.value.trackingId];
        && r.0 == CargoRepository.Store(cargos, c.(delivery := NewDelivery(made.value, c.itinerary, c.routeSpecification)))
        && CargoRepository.Find(r.0, made.value.trackingId).Success?
        && CargoRepository.Find(r.0, made.value.trackingId).value.delivery.lastEvent == made.value
  {
    var r := RegisterAndInspect(cargos, events, log, factory, now, completed, id, voyageNumber, loc, eventType);
    var made := factory(now, completed, id, voyageNumber, loc, eventType);
    if r.3.None? && made.Success? && made.value.trackingId in cargos {
      var e := made.value;
      var (events', handled, err) := RegisterHandlingEvent(events, [], factory, now, completed, id, voyageNumber, loc, eventType);
      assert handled == [e];
      var h := HandlingEventRepository.QueryHandlingHistory(events', e.trackingId);
      assert h[|h| - 1] == e;
      Inspection.InspectionRecordsLastEvent(cargos, events', log, e.trackingId);
    }
  }
}
