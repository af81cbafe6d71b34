/** Route specifications and the two status enumerations of a cargo's
    delivery. */
module RouteSpecs {
  import opened Wrappers
  import opened Shipping
  import opened Itineraries

  /** Where a cargo must go and by when. */
  datatype RouteSpecification = RouteSpecification(
    origin: UNLocode,
    destination: UNLocode,
    arrivalDeadline: Time)

  /** An itinerary satisfies a specification when its legs are not nil and it
      starts at the origin and ends at the destination. A non-nil empty
      itinerary satisfies exactly the specifications whose origin and
      destination are both the unknown location. */
  predicate IsSatisfiedBy(s: RouteSpecification, i: Itinerary)
    ensures IsSatisfiedBy(s, i) <==>
      && i.legs.Some?
      && (|i.legs.value| == 0 ==> s.origin == "" && s.destination == "")
      && (|i.legs.value| > 0 ==>
            && s.origin == i.legs.value[0].loadLocation
            && s.destination == i.legs.value[|i.legs.value| - 1].unloadLocation)
  {
    i.legs.Some? && s.origin == InitialDepartureLocation(i) && s.destination == FinalArrivalLocation(i)
  }

  /** Go's `RoutingStatus int`. */
  newtype RoutingStatus = int

  const NotRouted: RoutingStatus := 0
  const Misrouted: RoutingStatus := 1
  const Routed: RoutingStatus := 2

  /** `RoutingStatus.String`: one distinct text per named status and `""` for
      any other value. */
  function RoutingStatusString(s: RoutingStatus): (r: string)
    ensures r == "Not routed" <==> s == NotRouted
    ensures r == "Misrouted" <==> s == Misrouted
    ensures r == "Routed" <==> s == Routed
    ensures r == "" <==> s !in {NotRouted, Misrouted, Routed}
  {
    if s == NotRouted then "Not routed"
    else if s == Misrouted then "Misrouted"
    else if s == Routed then "Routed"
    else ""
  }

  /** Go's `TransportStatus int`. */
  newtype TransportStatus = int

  const NotReceived: TransportStatus := 0
  const InPort: TransportStatus := 1
  const OnboardCarrier: TransportStatus := 2
  const Claimed: TransportStatus := 3
  const Unknown: TransportStatus := 4

  /** `TransportStatus.String`: only `InPort` has a text. */
  function TransportStatusString(s: TransportStatus): (r: string)
    ensures r != "" <==> s == InPort
    ensures s == InPort ==> r == "In port"
  {
    if s == InPort then "In port" else ""
  }
}
