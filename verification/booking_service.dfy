/** The booking use case: booking cargos, routing them, changing their
    destination, and the read models shown to a booking administrator. The
    repositories are threaded through as values; the routing service and the
    tracking-id generator are parameters. */
module BookingService {
  import opened Wrappers
  import opened Shipping
  import opened Itineraries
  import opened RouteSpecs
  import opened Deliveries
  import opened Cargos
  import CargoRepository
  import LocationRepository
  import Collections

  /** The booking read model of a cargo. */
  datatype BookingCargo = BookingCargo(
    arrivalDeadline: Time,
    destination: UNLocode,
    legs: Option<seq<Leg>>,
    misrouted: bool,
    origin: UNLocode,
    routed: bool,
    trackingId: TrackingId)

  /** The booking read model of a location. */
  datatype BookingLocation = BookingLocation(unLocode: UNLocode, name: string)

  /** `FetchRoutesForSpecification` of some routing service; `None` is a nil
      slice. */
  type RoutingService = RouteSpecification -> Option<seq<Itinerary>>

  /** The read model: the cargo's identity and specification, whether it is
      misrouted and routed, and its legs exactly as the itinerary holds them. */
  function Assemble(c: Cargo): (v: BookingCargo)
    ensures v.trackingId == c.trackingId && v.origin == c.origin
    ensures v.destination == c.routeSpecification.destination
    ensures v.arrivalDeadline == c.routeSpecification.arrivalDeadline
    ensures v.misrouted <==> c.delivery.routingStatus == Misrouted
    ensures v.routed <==> |Legs(c.itinerary)| > 0
    ensures v.legs == c.itinerary.legs
  {
    BookingCargo(
      c.routeSpecification.arrivalDeadline,
      c.routeSpecification.destination,
      c.itinerary.legs,
      c.delivery.routingStatus == Misrouted,
      c.origin,
      !IsEmpty(c.itinerary),
      c.trackingId)
  }

  /** Books a cargo under the fresh id the generator supplied. Missing origin,
      destination or deadline is rejected and nothing is stored; otherwise the
      new cargo is stored and its id returned. */
  function BookNewCargo(
    cargos: CargoRepository.Repo, freshId: TrackingId,
    origin: UNLocode, destination: UNLocode, deadline: Time): (r: (CargoRepository.Repo, Result<TrackingId, Error>))
    ensures r.1.Failure? <==> origin == "" || destination == "" || IsZero(deadline)
    ensures r.1.Failure? ==> r.1.error == ErrInvalidArgument && r.0 == cargos
    ensures r.1.Success? ==>
      && r.1.value == freshId
      && CargoRepository.Find(r.0, freshId) == Success(NewCargo(freshId, RouteSpecification(origin, destination, deadline)))
      && forall id :: id != freshId ==> CargoRepository.Find(r.0, id) == CargoRepository.Find(cargos, id)
  {
    if origin == "" || destination == "" || IsZero(deadline) then
      (cargos, Failure(ErrInvalidArgument))
    else
      var c := NewCargo(freshId, RouteSpecification(origin, destination, deadline));
      (CargoRepository.Store(cargos, c), Success(c.trackingId))
  }

  /** The read model of one cargo: an empty id is invalid and an unknown one
      is reported by the repository. */
  function LoadCargo(cargos: CargoRepository.Repo, id: TrackingId): (r: Result<BookingCargo, Error>)
    ensures id == "" ==> r == Failure(ErrInvalidArgument)
    ensures id != "" && id !in cargos ==> r == Failure(ErrUnknownCargo)
    ensures id != "" && id in cargos ==> r == Success(Assemble(cargos[id]))
  {
    if id == "" then Failure(ErrInvalidArgument)
    else
      var c :- CargoRepository.Find(cargos, id);
      Success(Assemble(c))
  }

  /** Assigns an itinerary to a stored cargo. An empty id or an itinerary
      without legs (nil or empty) is rejected before the lookup; the error
      result is `Some` and the repository is then unchanged. */
  function AssignCargoToRoute(cargos: CargoRepository.Repo, id: TrackingId, i: Itinerary): (r: (CargoRepository.Repo, Option<Error>))
    ensures id == "" || |Legs(i)| == 0 ==> r == (cargos, Some(ErrInvalidArgument))
    ensures id != "" && |Legs(i)| > 0 && id !in cargos ==> r == (cargos, Some(ErrUnknownCargo))
    ensures id != "" && |Legs(i)| > 0 && id in cargos ==>
      r == (CargoRepository.Store(cargos, AssignToRoute(cargos[id], i)), None)
  {
    if id == "" || |Legs(i)| == 0 then (cargos, Some(ErrInvalidArgument))
    else match CargoRepository.Find(cargos, id)
      case Failure(e) => (cargos, Some(e))
      case Success(c) => (CargoRepository.Store(cargos, AssignToRoute(c, i)), None)
  }

  /** Changes the destination of a stored cargo to a known location. The
      checks run in order: empty argument, unknown cargo, unknown location.
      The new specification keeps the cargo's origin and deadline. */
  function ChangeDestination(
    cargos: CargoRepository.Repo, locations: LocationRepository.Repo,
    id: TrackingId, destination: UNLocode): (r: (CargoRepository.Repo, Option<Error>))
    ensures r.1.Some? ==> r.0 == cargos
    ensures id == "" || destination == "" ==> r.1 == Some(ErrInvalidArgument)
    ensures id != "" && destination != "" && id !in cargos ==> r.1 == Some(ErrUnknownCargo)
    ensures id != "" && destination != "" && id in cargos && destination !in locations ==>
      r.1 == Some(ErrUnknownLocation)
    ensures id != "" && destination != "" && id in cargos && destination in locations ==>
      var c := cargos[id];
      r == (CargoRepository.Store(cargos, SpecifyNewRoute(c,
              RouteSpecification(c.origin, locations[destination].unLocode, c.routeSpecification.arrivalDeadline))),
            None)
  {
    if id == "" || destination == "" then (cargos, Some(ErrInvalidArgument))
    else match CargoRepository.Find(cargos, id)
      case Failure(e) => (cargos, Some(e))
      case Success(c) =>
        match LocationRepository.Find(locations, destination)
        case Failure(e) => (cargos, Some(e))
        case Success(l) =>
          var s := RouteSpecification(c.origin, l.unLocode, c.routeSpecification.arrivalDeadline);
          (CargoRepository.Store(cargos, SpecifyNewRoute(c, s)), None)
  }

  /** The candidate itineraries for a cargo: nil for an empty id, an empty
      list for an unknown cargo, otherwise whatever the routing service
      proposes for the cargo's specification. */
  function RequestPossibleRoutesForCargo(
    cargos: CargoRepository.Repo, routing: RoutingService, id: TrackingId): (r: Option<seq<Itinerary>>)
    ensures id == "" ==> r == None
    ensures id != "" && id !in cargos ==> r == Some([])
    ensures id != "" && id in cargos ==> r == routing(cargos[id].routeSpecification)
  {
    if id == "" then None
    else match CargoRepository.Find(cargos, id)
      case Failure(_) => Some([])
      case Success(c) => routing(c.routeSpecification)
  }

  /** The read models of every stored cargo, one per tracking id, in the
      repository's unspecified order. */
  method ListCargos(cargos: CargoRepository.Repo) returns (vs: seq<BookingCargo>)
    ensures |vs| == |cargos|
    ensures exists ids :: Collections.IsEnumeration(Collections.Image(cargos, Assemble), ids, vs)
  {
    var cs := CargoRepository.FindAll(cargos);
    vs := [];
    var k := 0;
    while k < |cs|
      invariant 0 <= k <= |cs|
      invariant |vs| == k
      invariant forall j :: 0 <= j < k ==> vs[j] == Assemble(cs[j])
    {
      vs := vs + [Assemble(cs[k])];
      k := k + 1;
    }
    assert forall j :: 0 <= j < |cs| ==> vs[j] == Assemble(cs[j]);
    ghost var ids :| Collections.IsEnumeration(cargos, ids, cs);
    Collections.MapEnumeration(cargos, ids, cs, Assemble, vs);
  }

  function LocationView(l: LocationRepository.Location): BookingLocation {
    BookingLocation(l.unLocode, l.name)
  }

  /** The read models of every registered location, one per locode. */
  method ListLocations(locations: LocationRepository.Repo) returns (vs: seq<BookingLocation>)
    ensures |vs| == |locations|
    ensures exists codes :: Collections.IsEnumeration(Collections.Image(locations, LocationView), codes, vs)
  {
    var ls := LocationRepository.FindAll(locations);
    vs := [];
    var k := 0;
    while k < |ls|
      invariant 0 <= k <= |ls|
      invariant |vs| == k
      invariant forall j :: 0 <= j < k ==> vs[j] == LocationView(ls[j])
    {
      vs := vs + [LocationView(ls[k])];
      k := k + 1;
    }
    assert forall j :: 0 <= j < |ls| ==> vs[j] == LocationView(ls[j]);
    ghost var codes :| Collections.IsEnumeration(locations, codes, ls);
    Collections.MapEnumeration(locations, codes, ls, LocationView, vs);
  }

  /** A booked cargo reads back with the origin, destination and deadline it
      was booked with, not yet routed, not misrouted and with nil legs. */
  lemma BookThenLoad(cargos: CargoRepository.Repo, freshId: TrackingId, origin: UNLocode, destination: UNLocode, deadline: Time)
    requires freshId != ""
    ensures var (cargos', res) := BookNewCargo(cargos, freshId, origin, destination, deadline);
      res.Success? ==>
        LoadCargo(cargos', res.value) ==
          Success(BookingCargo(deadline, destination, None, false, origin, false, freshId))
  {
  }

  /** The routing service stub of the booking tests: a single itinerary with
      one leg from the origin straight to the destination. */
  function DirectRoute(s: RouteSpecification): Option<seq<Itinerary>> {
    Some([Itinerary(Some([Leg("", s.origin, s.destination, ZeroTime, ZeroTime)]))])
  }

  /** Booking, requesting routes from the stub and assigning the first one
      routes the cargo; an unknown id gets no routes, and an empty itinerary
      is rejected as an invalid argument before the id is looked up. */
  lemma BookRequestAssign(cargos: CargoRepository.Repo, freshId: TrackingId, origin: UNLocode, destination: UNLocode, deadline: Time)
    requires freshId != "" && origin != "" && destination != "" && !IsZero(deadline)
    requires "no_such_id" !in cargos && freshId != "no_such_id"
    ensures
      var (c1, res) := BookNewCargo(cargos, freshId, origin, destination, deadline);
      var routes := RequestPossibleRoutesForCargo(c1, DirectRoute, freshId);
      && RequestPossibleRoutesForCargo(c1, DirectRoute, "no_such_id") == Some([])
      && routes.Some? && |routes.value| == 1
      && var (c2, err) := AssignCargoToRoute(c1, freshId, routes.value[0]);
      && err.None?
      && c2[freshId].delivery.routingStatus == Routed
      && AssignCargoToRoute(c2, "no_such_id", EmptyItinerary) == (c2, Some(ErrInvalidArgument))
  {
    var (c1, res) := BookNewCargo(cargos, freshId, origin, destination, deadline);
    assert CargoRepository.Find(c1, freshId).Success?;
  }

  /** With the sample locations, changing the destination of a stored cargo
      to a known locode keeps its origin and deadline and only moves the
      destination; an unknown locode changes nothing. The repository holds
      each cargo under its own id, as `Store` always does. */
  lemma ChangeDestinationKeepsOriginAndDeadline(cargos: CargoRepository.Repo, id: TrackingId, destination: UNLocode)
    requires id != "" && destination != "" && id in cargos
    requires CargoRepository.KeyedById(cargos)
    ensures
      var locations := LocationRepository.NewLocationRepository();
      var (cargos', err) := ChangeDestination(cargos, locations, id, destination);
      && (destination in locations ==>
            && err.None?
            && cargos'[id].origin == cargos[id].origin
            && cargos'[id].routeSpecification ==
                 RouteSpecification(cargos[id].origin, destination, cargos[id].routeSpecification.arrivalDeadline)
            && cargos'[id].itinerary == cargos[id].itinerary)
      && (destination !in locations ==> err == Some(ErrUnknownLocation) && cargos' == cargos)
  {
    var locations := LocationRepository.NewLocationRepository();
    if destination in locations {
      var c := cargos[id];
      assert locations[destination].unLocode == destination;
      var s := RouteSpecification(c.origin, destination, c.routeSpecification.arrivalDeadline);
      assert ChangeDestination(cargos, locations, id, destination).0 == CargoRepository.Store(cargos, SpecifyNewRoute(c, s));
      assert CargoRepository.Find(CargoRepository.Store(cargos, SpecifyNewRoute(c, s)), id) == Success(SpecifyNewRoute(c, s));
    }
  }
}
