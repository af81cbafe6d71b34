/** The life of a cargo from Hongkong to Stockholm over the in-memory
    repositories: booked, routed, received, loaded, unloaded in the wrong
    port, rerouted, and carried on to be claimed. Booking, routing and the
    first receipt go through the booking and handling services; each later
    step is stated on the snapshot that `RegisterStep` shows one
    registration through the handling service to produce, given the history
    so far. Also the scenarios of the inspection and handling service tests. */
module Lifecycle {
  import opened Wrappers
  import opened Shipping
  import opened HandlingEvents
  import opened Itineraries
  import opened RouteSpecs
  import opened Deliveries
  import opened Cargos
  import CargoRepository
  import HandlingEventRepository
  import LocationRepository
  import VoyageRepository
  import BookingService
  import HandlingService
  import Inspection
  import Tracking

  /** The id the tracking-id generator hands out in the walk. */
  const Id: TrackingId := "ABC123"

  /** 18 March 2009, 12:00 UTC. */
  const Deadline: Time := 1237377600

  /** The registration time; the factory in these scenarios ignores it. */
  const Now: Time := 1237377600

  /** A factory that accepts an event when the cargo is stored, the voyage
      is empty or one of the sample voyages, and the location is one of the
      sample locations, and builds the event from its arguments. */
  function CheckingFactory(cargos: CargoRepository.Repo): HandlingService.Factory {
    (registered: Time, completed: Time, id: TrackingId, v: VoyageNumber, loc: UNLocode, t: HandlingEventType) =>
      if id !in cargos then Failure(ErrUnknownCargo)
      else if v != "" && v !in VoyageRepository.NewVoyageRepository() then Failure(ErrUnknownVoyage)
      else if loc !in LocationRepository.NewLocationRepository() then Failure(ErrUnknownLocation)
      else Success(HandlingEvent(id, HandlingActivity(t, loc, v)))
  }

  /** The stub routing service of the walk: from Hongkong the three-leg route
      over New York and Chicago, from anywhere else the route from Tokyo over
      Hamburg. */
  function StubRouting(s: RouteSpecification): Option<seq<Itinerary>> {
    if s.origin == "CNHKG" then Some([HongkongRoute]) else Some([TokyoRoute])
  }

  const HongkongRoute := Itinerary(Some([
    Leg("V100", "CNHKG", "USNYC", 1236081600, 1236600000),
    Leg("V200", "USNYC", "USCHI", 1236686400, 1237032000),
    Leg("V300", "USCHI", "SESTO", 1236427200, 1236772800)]))

  const TokyoRoute := Itinerary(Some([
    Leg("V300", "JNTKO", "DEHAM", 1236513600, 1236859200),
    Leg("V400", "DEHAM", "SESTO", 1237032000, 1237118400)]))

  const FirstSpec := RouteSpecification("CNHKG", "SESTO", Deadline)
  const SecondSpec := RouteSpecification("JNTKO", "SESTO", Deadline)

  function Event(t: HandlingEventType, loc: UNLocode, v: VoyageNumber): HandlingEvent {
    HandlingEvent(Id, HandlingActivity(t, loc, v))
  }

  /** The cargo of the walk at the moment `e` is its last event. */
  function Snapshot(s: RouteSpecification, i: Itinerary, e: HandlingEvent): Cargo {
    Cargo(Id, "CNHKG", s, i, NewDelivery(e, i, s))
  }

  /** One registration in a world holding only the walk's cargo: a valid
      event at a known voyage and location is stored, appended to the
      history, and the cargo stored back with the event as its last one. */
  lemma RegisterStep(c: Cargo, h: HandlingHistory, log: seq<Inspection.Notification>,
                     completed: Time, v: VoyageNumber, loc: UNLocode, t: HandlingEventType)
    requires c.trackingId == Id
    requires !IsZero(completed) && loc != "" && t != NotHandled
    requires v == "" || v in VoyageRepository.NewVoyageRepository()
    requires loc in LocationRepository.NewLocationRepository()
    ensures
      var cargos := map[Id := c];
      var r := HandlingService.RegisterAndInspect(cargos, map[Id := h], log, CheckingFactory(cargos), Now,
                                                  completed, Id, v, loc, t);
      && r.3.None?
      && r.0 == map[Id := c.(delivery := NewDelivery(Event(t, loc, v), c.itinerary, c.routeSpecification))]
      && HandlingEventRepository.QueryHandlingHistory(r.1, Id) == h + [Event(t, loc, v)]
  {
    var cargos := map[Id := c];
    var e := Event(t, loc, v);
    assert CargoRepository.KeyedById(cargos);
    assert CheckingFactory(cargos)(Now, completed, Id, v, loc, t) == Success(e);
    var c' := c.(delivery := NewDelivery(e, c.itinerary, c.routeSpecification));
    assert CargoRepository.Store(cargos, c') == map[Id := c'];
    HandlingService.StoreBeforeNotify(cargos, map[Id := h], log, CheckingFactory(cargos), Now, completed, Id, v, loc, t);
  }

  /** Use case 1: booking. The new cargo is not received, not routed, not
      misdirected, has no itinerary and nothing is expected of it. */
  lemma Booking()
    ensures
      var (cargos, res) := BookingService.BookNewCargo(CargoRepository.NewRepo, Id, "CNHKG", "SESTO", Deadline);
      var c := cargos[Id];
      && res == Success(Id)
      && c == Cargo(Id, "CNHKG", FirstSpec, EmptyItinerary, NewDelivery(NoEvent, EmptyItinerary, FirstSpec))
      && c.delivery.transportStatus == NotReceived
      && c.delivery.routingStatus == NotRouted
      && !c.delivery.isMisdirected
      && IsEmpty(c.delivery.itinerary)
      && c.delivery.nextExpectedActivity == NoActivity
  {
  }

  /** Use case 2: routing. The stub's first route is assigned; the cargo is
      routed and expected to be received in Hongkong. */
  lemma Routing()
    ensures
      var (cargos, _) := BookingService.BookNewCargo(CargoRepository.NewRepo, Id, "CNHKG", "SESTO", Deadline);
      var routes := BookingService.RequestPossibleRoutesForCargo(cargos, StubRouting, Id);
      && routes == Some([HongkongRoute])
      && var c := AssignToRoute(cargos[Id], HongkongRoute);
      && c == Snapshot(FirstSpec, HongkongRoute, NoEvent)
      && c.delivery.transportStatus == NotReceived
      && c.delivery.routingStatus == Routed
      && !c.delivery.isMisdirected
      && !IsEmpty(c.delivery.itinerary)
      && c.delivery.nextExpectedActivity == HandlingActivity(Receive, "CNHKG", "")
  {
  }

  /** Received in Hongkong: the registration stores the cargo in port
      there, still on its route. */
  lemma ReceivedInHongkong(h: HandlingHistory, log: seq<Inspection.Notification>)
    ensures
      var c0 := Snapshot(FirstSpec, HongkongRoute, NoEvent);
      var c1 := Snapshot(FirstSpec, HongkongRoute, Event(Receive, "CNHKG", ""));
      && HandlingService.RegisterAndInspect(map[Id := c0], map[Id := h], log, CheckingFactory(map[Id := c0]), Now,
                                            1235908800, Id, "", "CNHKG", Receive).0 == map[Id := c1]
      && c1.delivery.transportStatus == InPort
      && c1.delivery.lastKnownLocation == "CNHKG"
      && !IsEmpty(c1.delivery.itinerary)
  {
    var c0 := Snapshot(FirstSpec, HongkongRoute, NoEvent);
    RegisterStep(c0, h, log, 1235908800, "", "CNHKG", Receive);
  }

  /** Loaded onto V100 in Hongkong: onboard V100 and expected to be unloaded
      in New York. */
  lemma LoadedInHongkong()
    ensures
      var c := Snapshot(FirstSpec, HongkongRoute, Event(Load, "CNHKG", "V100"));
      && c.delivery.transportStatus == OnboardCarrier
      && c.delivery.lastKnownLocation == "CNHKG"
      && !c.delivery.isMisdirected
      && Tracking.CurrentVoyage(c.delivery) == "V100"
      && c.delivery.nextExpectedActivity == HandlingActivity(Unload, "USNYC", "V100")
  {
  }

  /** Loading onto the unknown voyage XX000 in the unknown location ZZZZZ is
      refused and changes nothing. */
  lemma UnknownVoyageAndLocationRefused(c: Cargo, h: HandlingHistory, log: seq<Inspection.Notification>)
    requires c.trackingId == Id
    ensures
      var cargos, events := map[Id := c], map[Id := h];
      var r := HandlingService.RegisterAndInspect(cargos, events, log, CheckingFactory(cargos), Now,
                                                  1236254400, Id, "XX000", "ZZZZZ", Load);
      r == (cargos, events, log, Some(ErrUnknownVoyage))
  {
    var cargos := map[Id := c];
    assert "XX000" !in VoyageRepository.NewVoyageRepository().Keys;
    assert CheckingFactory(cargos)(Now, 1236254400, Id, "XX000", "ZZZZZ", Load) == Failure(ErrUnknownVoyage);
  }

  /** Unloaded from V100 in Tokyo, which the route never visits: in port in
      Tokyo, on no voyage, misdirected, and nothing is expected. */
  lemma MisdirectedInTokyo()
    ensures
      var c := Snapshot(FirstSpec, HongkongRoute, Event(Unload, "JNTKO", "V100"));
      && c.delivery.lastKnownLocation == "JNTKO"
      && c.delivery.transportStatus == InPort
      && !IsEmpty(c.delivery.itinerary)
      && Tracking.CurrentVoyage(c.delivery) == ""
      && c.delivery.nextExpectedActivity == NoActivity
      && c.delivery.isMisdirected
  {
  }

  /** Rerouting from Tokyo: the new specification alone leaves the cargo
      misrouted with nothing expected; assigning the stub's Tokyo route
      routes it again. */
  lemma Rerouting()
    ensures
      var c := Snapshot(FirstSpec, HongkongRoute, Event(Unload, "JNTKO", "V100"));
      var c1 := SpecifyNewRoute(c, SecondSpec);
      && c1.delivery.routingStatus == Misrouted
      && c1.delivery.nextExpectedActivity == NoActivity
      && BookingService.RequestPossibleRoutesForCargo(map[Id := c1], StubRouting, Id) == Some([TokyoRoute])
      && AssignToRoute(c1, TokyoRoute).delivery.routingStatus == Routed
  {
  }

  /** Loaded onto V300 in Tokyo: onboard V300 as planned, and expected to be
      unloaded in Hamburg. */
  lemma LoadedInTokyo()
    ensures
      var c := Snapshot(SecondSpec, TokyoRoute, Event(Load, "JNTKO", "V300"));
      && c.delivery.lastKnownLocation == "JNTKO"
      && c.delivery.transportStatus == OnboardCarrier
      && !c.delivery.isMisdirected
      && Tracking.CurrentVoyage(c.delivery) == "V300"
      && c.delivery.nextExpectedActivity == HandlingActivity(Unload, "DEHAM", "V300")
  {
  }

  /** Unloaded from V300 in Hamburg: in port as planned, and expected to be
      loaded onto V400 there. */
  lemma UnloadedInHamburg()
    ensures
      var c := Snapshot(SecondSpec, TokyoRoute, Event(Unload, "DEHAM", "V300"));
      && c.delivery.lastKnownLocation == "DEHAM"
      && c.delivery.transportStatus == InPort
      && !c.delivery.isMisdirected
      && Tracking.CurrentVoyage(c.delivery) == ""
      && c.delivery.nextExpectedActivity == HandlingActivity(Load, "DEHAM", "V400")
  {
  }

  /** Loaded onto V400 in Hamburg: expected to be unloaded in Stockholm. */
  lemma LoadedInHamburg()
    ensures
      var c := Snapshot(SecondSpec, TokyoRoute, Event(Load, "DEHAM", "V400"));
      && c.delivery.lastKnownLocation == "DEHAM"
      && c.delivery.transportStatus == OnboardCarrier
      && !c.delivery.isMisdirected
      && Tracking.CurrentVoyage(c.delivery) == "V400"
      && c.delivery.nextExpectedActivity == HandlingActivity(Unload, "SESTO", "V400")
  {
  }

  /** Unloaded from V400 in Stockholm, its destination: expected to be
      claimed there. */
  lemma UnloadedInStockholm()
    ensures
      var c := Snapshot(SecondSpec, TokyoRoute, Event(Unload, "SESTO", "V400"));
      && c.delivery.lastKnownLocation == "SESTO"
      && c.delivery.transportStatus == InPort
      && !c.delivery.isMisdirected
      && c.delivery.isUnloadedAtDestination
      && Tracking.CurrentVoyage(c.delivery) == ""
      && c.delivery.nextExpectedActivity == HandlingActivity(Claim, "SESTO", "")
  {
  }

  /** Claimed in Stockholm: the end of the life cycle, with nothing more
      expected. */
  lemma Claimed()
    ensures
      var c := Snapshot(SecondSpec, TokyoRoute, Event(Claim, "SESTO", "V400"));
      && c.delivery.lastKnownLocation == "SESTO"
      && c.delivery.transportStatus == RouteSpecs.Claimed
      && !c.delivery.isMisdirected
      && Tracking.CurrentVoyage(c.delivery) == ""
      && c.delivery.nextExpectedActivity == NoActivity
  {
  }

  /** The itinerary and specification of the inspection tests. */
  const InspectedRoute := Itinerary(Some([
    Leg("001A", "SESTO", "AUMEL", ZeroTime, ZeroTime),
    Leg("001A", "AUMEL", "CNHKG", ZeroTime, ZeroTime)]))

  const InspectedCargo := AssignToRoute(NewCargo(Id, RouteSpecification("SESTO", "CNHKG", ZeroTime)), InspectedRoute)

  /** A cargo whose last event unloads it in New York, off its route, is
      reported misdirected exactly once. */
  lemma InspectMisdirectedCargo()
    ensures
      var h := [Event(Receive, "SESTO", "001A"), Event(Load, "SESTO", "001A"), Event(Unload, "USNYC", "001A")];
      var (_, log) := Inspection.InspectCargo(map[Id := InspectedCargo], map[Id := h], [], Id);
      |log| == 1 && log[0].CargoWasMisdirected?
  {
    var h := [Event(Receive, "SESTO", "001A"), Event(Load, "SESTO", "001A"), Event(Unload, "USNYC", "001A")];
    var (_, log) := Inspection.InspectCargo(map[Id := InspectedCargo], map[Id := h], [], Id);
    var c' := DeriveDeliveryProgress(InspectedCargo, h);
    assert c'.delivery.isMisdirected && !c'.delivery.isUnloadedAtDestination;
    assert log == Inspection.Notices(c');
  }

  /** A cargo whose last event unloads it at its destination, as planned, is
      reported arrived exactly once. */
  lemma InspectUnloadedCargo()
    ensures
      var h := [Event(Receive, "SESTO", "001A"), Event(Load, "SESTO", "001A"), Event(Unload, "AUMEL", "001A"),
                Event(Load, "AUMEL", "001A"), Event(Unload, "CNHKG", "001A")];
      var (_, log) := Inspection.InspectCargo(map[Id := InspectedCargo], map[Id := h], [], Id);
      |log| == 1 && log[0].CargoHasArrived?
  {
    var h := [Event(Receive, "SESTO", "001A"), Event(Load, "SESTO", "001A"), Event(Unload, "AUMEL", "001A"),
              Event(Load, "AUMEL", "001A"), Event(Unload, "CNHKG", "001A")];
    var (_, log) := Inspection.InspectCargo(map[Id := InspectedCargo], map[Id := h], [], Id);
    var c' := DeriveDeliveryProgress(InspectedCargo, h);
    assert !c'.delivery.isMisdirected && c'.delivery.isUnloadedAtDestination;
    assert log == Inspection.Notices(c');
  }

  /** The handling service test: registering a load for a stored cargo
      succeeds and notifies the handler; registering one for an unknown id
      fails with the repository's error and notifies no one. */
  lemma RegisterKnownThenUnknown(events: HandlingEventRepository.Repo)
    ensures
      var cargos := map[Id := NewCargo(Id, RouteSpecification("", "", ZeroTime))];
      var f := CheckingFactory(cargos);
      var (events1, handled1, err1) := HandlingService.RegisterHandlingEvent(events, [], f, Now, 1447196400, Id, "V100", "SESTO", Load);
      var (_, handled2, err2) := HandlingService.RegisterHandlingEvent(events1, handled1, f, Now, 1447196400, "no_such_id", "V100", "SESTO", Load);
      && err1.None?
      && err2 == Some(ErrUnknownCargo)
      && |handled2| == 1
  {
  }
}
