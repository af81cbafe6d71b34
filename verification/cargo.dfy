/** The cargo aggregate: identity, origin, route specification, itinerary and
    the delivery snapshot derived from them. */
module Cargos {
  import opened Wrappers
  import opened Shipping
  import opened HandlingEvents
  import opened Itineraries
  import opened RouteSpecs
  import opened Deliveries

  datatype Cargo = Cargo(
    trackingId: TrackingId,
    origin: UNLocode,
    routeSpecification: RouteSpecification,
    itinerary: Itinerary,
    delivery: Delivery)

  /** A booked cargo: origin taken from the specification, nil itinerary, no
      handling history. */
  function NewCargo(id: TrackingId, s: RouteSpecification): (c: Cargo)
    ensures c.trackingId == id && c.origin == s.origin && c.routeSpecification == s
    ensures c.itinerary.legs.None?
    ensures c.delivery.routingStatus == NotRouted
    ensures c.delivery.transportStatus == NotReceived
    ensures !c.delivery.isMisdirected && !c.delivery.isUnloadedAtDestination
    ensures c.delivery.lastKnownLocation == ""
    ensures c.delivery.nextExpectedActivity == NoActivity
  {
    Cargo(id, s.origin, s, EmptyItinerary, DeriveDeliveryFrom(s, EmptyItinerary, []))
  }

  /** The snapshot a cargo carries was derived from the cargo's own
      specification and itinerary. */
  ghost predicate Valid(c: Cargo) {
    && Consistent(c.delivery)
    && c.delivery.routeSpecification == c.routeSpecification
    && c.delivery.itinerary == c.itinerary
  }

  /** Replaces the route specification and re-derives the delivery; identity,
      origin, itinerary and last event stay as they were. */
  function SpecifyNewRoute(c: Cargo, s: RouteSpecification): (c': Cargo)
    ensures c'.routeSpecification == s
    ensures c'.trackingId == c.trackingId && c'.origin == c.origin && c'.itinerary == c.itinerary
    ensures c'.delivery.lastEvent == c.delivery.lastEvent
    ensures Valid(c')
  {
    c.(routeSpecification := s, delivery := UpdateOnRouting(c.delivery, s, c.itinerary))
  }

  /** Replaces the itinerary and re-derives the delivery; identity, origin,
      specification and last event stay as they were. */
  function AssignToRoute(c: Cargo, i: Itinerary): (c': Cargo)
    ensures c'.itinerary == i
    ensures c'.trackingId == c.trackingId && c'.origin == c.origin
    ensures c'.routeSpecification == c.routeSpecification
    ensures c'.delivery.lastEvent == c.delivery.lastEvent
    ensures Valid(c')
  {
    c.(itinerary := i, delivery := UpdateOnRouting(c.delivery, c.routeSpecification, i))
  }

  /** Re-derives the delivery from a handling history; nothing else changes. */
  function DeriveDeliveryProgress(c: Cargo, h: HandlingHistory): (c': Cargo)
    ensures c'.trackingId == c.trackingId && c'.origin == c.origin
    ensures c'.routeSpecification == c.routeSpecification && c'.itinerary == c.itinerary
    ensures |h| > 0 ==> c'.delivery.lastEvent == h[|h| - 1]
    ensures |h| == 0 ==> c'.delivery.lastEvent == NoEvent
    ensures Valid(c')
  {
    c.(delivery := DeriveDeliveryFrom(c.routeSpecification, c.itinerary, h))
  }

  /** Entities are the same when their tracking ids are. */
  predicate SameIdentity(a: Cargo, b: Cargo) {
    a.trackingId == b.trackingId
  }

  /** Assigning an itinerary routes the cargo exactly when the itinerary
      satisfies the specification, leaves it not routed exactly when the legs
      are nil, and misroutes it otherwise. */
  lemma AssignToRouteStatus(c: Cargo, i: Itinerary)
    ensures var s := AssignToRoute(c, i).delivery.routingStatus;
      && (s == Routed <==> IsSatisfiedBy(c.routeSpecification, i))
      && (s == NotRouted <==> i.legs.None?)
      && (s == Misrouted <==> i.legs.Some? && !IsSatisfiedBy(c.routeSpecification, i))
  {
  }

  /** Cargos built with the same tracking id are the same entity whatever
      their specifications, and different ids give different entities. */
  lemma IdentityIgnoresSpecification(id1: TrackingId, id2: TrackingId, s1: RouteSpecification, s2: RouteSpecification)
    ensures SameIdentity(NewCargo(id1, s1), NewCargo(id2, s2)) <==> id1 == id2
  {
  }

  /** Every operation on the aggregate keeps its snapshot derived from its own
      specification and itinerary. */
  lemma OperationsKeepValid(c: Cargo, s: RouteSpecification, i: Itinerary, h: HandlingHistory)
    ensures Valid(NewCargo(c.trackingId, s))
    ensures Valid(SpecifyNewRoute(c, s)) && Valid(AssignToRoute(c, i)) && Valid(DeriveDeliveryProgress(c, h))
  {
  }

  /** Booking, specifying a route, then assigning a bad and a good itinerary
      moves the routing status from not routed to misrouted to routed. */
  lemma RoutingStatusProgression()
    ensures
      var good := Itinerary(Some([Leg("", "SESTO", "AUMEL", ZeroTime, ZeroTime)]));
      var bad := Itinerary(Some([Leg("", "SESTO", "CNHKG", ZeroTime, ZeroTime)]));
      var c0 := SpecifyNewRoute(NewCargo("ABC", RouteSpecification("", "", ZeroTime)),
                                RouteSpecification("SESTO", "AUMEL", ZeroTime));
      var c1 := AssignToRoute(c0, bad);
      var c2 := AssignToRoute(c1, good);
      && c0.delivery.routingStatus == NotRouted
      && c1.delivery.routingStatus == Misrouted
      && c2.delivery.routingStatus == Routed
  {
  }
}
