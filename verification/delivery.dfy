/** The delivery snapshot of a cargo: everything derived from its last
    handling event, its itinerary and its route specification. */
module Deliveries {
  import opened Wrappers
  import opened Shipping
  import opened HandlingEvents
  import opened Itineraries
  import opened RouteSpecs

  datatype Delivery = Delivery(
    itinerary: Itinerary,
    routeSpecification: RouteSpecification,
    routingStatus: RoutingStatus,
    transportStatus: TransportStatus,
    isMisdirected: bool,
    isUnloadedAtDestination: bool,
    nextExpectedActivity: HandlingActivity,
    lastEvent: HandlingEvent,
    lastKnownLocation: UNLocode)

  predicate IsOnTrack(d: Delivery) {
    d.routingStatus == Routed && !d.isMisdirected
  }

  /** Nil legs are not routed; otherwise the specification decides between
      routed and misrouted. */
  function CalculateRoutingStatus(i: Itinerary, s: RouteSpecification): (r: RoutingStatus)
    ensures r == NotRouted <==> i.legs.None?
    ensures r == Routed <==> IsSatisfiedBy(s, i)
    ensures r == Misrouted <==> i.legs.Some? && !IsSatisfiedBy(s, i)
  {
    if i.legs.None? then NotRouted
    else if IsSatisfiedBy(s, i) then Routed
    else Misrouted
  }

  /** A handled cargo is misdirected when its last event was not expected on
      the itinerary; a cargo never handled is not misdirected. */
  function CalculateMisdirectedStatus(e: HandlingEvent, i: Itinerary): (b: bool)
    ensures b <==> e.activity.eventType != NotHandled && !ExpectedBySpec(i, e)
  {
    IsExpectedMatchesSpec(i, e);
    if e.activity.eventType == NotHandled then false else !IsExpected(i, e)
  }

  function CalculateUnloadedAtDestination(e: HandlingEvent, s: RouteSpecification): (b: bool)
    ensures b <==> e.activity.eventType == Unload && e.activity.location == s.destination
  {
    if e.activity.eventType == NotHandled then false
    else e.activity.eventType == Unload && s.destination == e.activity.location
  }

  /** Each transport status corresponds to exactly the event types listed. */
  function CalculateTransportStatus(e: HandlingEvent): (t: TransportStatus)
    ensures t == NotReceived <==> e.activity.eventType == NotHandled
    ensures t == OnboardCarrier <==> e.activity.eventType == Load
    ensures t == InPort <==> e.activity.eventType in {Unload, Receive, Customs}
    ensures t == Claimed <==> e.activity.eventType == Claim
    ensures t == Unknown <==> e.activity.eventType !in {NotHandled, Load, Unload, Receive, Claim, Customs}
  {
    var t := e.activity.eventType;
    if t == NotHandled then NotReceived
    else if t == Load then OnboardCarrier
    else if t == Unload then InPort
    else if t == Receive then InPort
    else if t == Customs then InPort
    else if t == Claim then Claimed
    else Unknown
  }

  function CalculateLastKnownLocation(e: HandlingEvent): UNLocode {
    e.activity.location
  }

  function LoadingAt(loc: UNLocode): Leg -> bool {
    (l: Leg) => l.loadLocation == loc
  }

  function UnloadingAt(loc: UNLocode): Leg -> bool {
    (l: Leg) => l.unloadLocation == loc
  }

  /** `k` is the first leg that loads at `loc`. */
  ghost predicate FirstLoadingLeg(legs: seq<Leg>, loc: UNLocode, k: int) {
    0 <= k < |legs| && legs[k].loadLocation == loc &&
    forall j :: 0 <= j < k ==> legs[j].loadLocation != loc
  }

  /** `k` is the first leg that unloads at `loc`. */
  ghost predicate FirstUnloadingLeg(legs: seq<Leg>, loc: UNLocode, k: int) {
    0 <= k < |legs| && legs[k].unloadLocation == loc &&
    forall j :: 0 <= j < k ==> legs[j].unloadLocation != loc
  }

  /** What should happen next to a cargo that is on track: receive it at the
      origin; unload it where the first leg loading at its location ends; load
      it onto the leg after the first leg unloading at its location, or claim
      it there when that leg is the last. Otherwise nothing is expected. */
  function CalculateNextExpectedActivity(d: Delivery): (a: HandlingActivity)
    ensures !IsOnTrack(d) ==> a == NoActivity
    ensures IsOnTrack(d) && d.lastEvent.activity.eventType == NotHandled ==>
      a == HandlingActivity(Receive, d.routeSpecification.origin, "")
    ensures IsOnTrack(d) && d.lastEvent.activity.eventType == Load ==>
      var legs, loc := Legs(d.itinerary), d.lastEvent.activity.location;
      && ((forall j :: 0 <= j < |legs| ==> legs[j].loadLocation != loc) ==> a == NoActivity)
      && (forall k :: FirstLoadingLeg(legs, loc, k) ==>
            a == HandlingActivity(Unload, legs[k].unloadLocation, legs[k].voyageNumber))
    ensures IsOnTrack(d) && d.lastEvent.activity.eventType == Unload ==>
      var legs, loc := Legs(d.itinerary), d.lastEvent.activity.location;
      && ((forall j :: 0 <= j < |legs| ==> legs[j].unloadLocation != loc) ==> a == NoActivity)
      && (forall k :: FirstUnloadingLeg(legs, loc, k) && k < |legs| - 1 ==>
            a == HandlingActivity(Load, legs[k + 1].loadLocation, legs[k + 1].voyageNumber))
      && (forall k :: FirstUnloadingLeg(legs, loc, k) && k == |legs| - 1 ==>
            a == HandlingActivity(Claim, legs[k].unloadLocation, ""))
    ensures IsOnTrack(d) && d.lastEvent.activity.eventType !in {NotHandled, Load, Unload} ==>
      a == NoActivity
  {
    var legs := Legs(d.itinerary);
    var last := d.lastEvent.activity;
    if !IsOnTrack(d) then NoActivity
    else if last.eventType == NotHandled then HandlingActivity(Receive, d.routeSpecification.origin, "")
    else if last.eventType == Load then
      match FirstLeg(legs, LoadingAt(last.location), 0)
      case Some(k) => HandlingActivity(Unload, legs[k].unloadLocation, legs[k].voyageNumber)
      case None => NoActivity
    else if last.eventType == Unload then
      match FirstLeg(legs, UnloadingAt(last.location), 0)
      case Some(k) =>
        if k < |legs| - 1 then HandlingActivity(Load, legs[k + 1].loadLocation, legs[k + 1].voyageNumber)
        else HandlingActivity(Claim, legs[k].unloadLocation, "")
      case None => NoActivity
    else NoActivity
  }

  /** `newDelivery`: the snapshot for a last event, an itinerary and a route
      specification. */
  function NewDelivery(lastEvent: HandlingEvent, i: Itinerary, s: RouteSpecification): (d: Delivery)
    ensures d.lastEvent == lastEvent && d.itinerary == i && d.routeSpecification == s
    ensures d.lastKnownLocation == lastEvent.activity.location
    ensures d.routingStatus == CalculateRoutingStatus(i, s)
    ensures d.transportStatus == CalculateTransportStatus(lastEvent)
    ensures d.isMisdirected <==> lastEvent.activity.eventType != NotHandled && !IsExpected(i, lastEvent)
    ensures d.isUnloadedAtDestination <==>
      lastEvent.activity.eventType == Unload && lastEvent.activity.location == s.destination
    ensures d.nextExpectedActivity == CalculateNextExpectedActivity(d)
  {
    var d := Delivery(
      itinerary := i,
      routeSpecification := s,
      routingStatus := CalculateRoutingStatus(i, s),
      transportStatus := CalculateTransportStatus(lastEvent),
      isMisdirected := CalculateMisdirectedStatus(lastEvent, i),
      isUnloadedAtDestination := CalculateUnloadedAtDestination(lastEvent, s),
      nextExpectedActivity := NoActivity,
      lastEvent := lastEvent,
      lastKnownLocation := CalculateLastKnownLocation(lastEvent));
    IsExpectedMatchesSpec(i, lastEvent);
    d.(nextExpectedActivity := CalculateNextExpectedActivity(d))
  }

  /** A snapshot is consistent when it is what `NewDelivery` derives from its
      own last event, itinerary and specification. */
  ghost predicate Consistent(d: Delivery) {
    d == NewDelivery(d.lastEvent, d.itinerary, d.routeSpecification)
  }

  /** Re-derives the snapshot for a new specification and itinerary, keeping
      only the last event. */
  function UpdateOnRouting(d: Delivery, s: RouteSpecification, i: Itinerary): (d': Delivery)
    ensures d'.lastEvent == d.lastEvent
    ensures d'.routeSpecification == s && d'.itinerary == i
    ensures Consistent(d')
  {
    NewDelivery(d.lastEvent, i, s)
  }

  /** Rerouting twice is the same as rerouting once to the final values: no
      trace of the intermediate routing survives. */
  lemma UpdateOnRoutingForgetsEarlierRouting(d: Delivery, s1: RouteSpecification, i1: Itinerary,
                                             s2: RouteSpecification, i2: Itinerary)
    ensures UpdateOnRouting(UpdateOnRouting(d, s1, i1), s2, i2) == UpdateOnRouting(d, s2, i2)
  {
  }

  /** Rerouting a consistent snapshot to its own specification and itinerary
      changes nothing. */
  lemma UpdateOnRoutingIdempotent(d: Delivery)
    requires Consistent(d)
    ensures UpdateOnRouting(d, d.routeSpecification, d.itinerary) == d
  {
  }

  /** `DeriveDeliveryFrom`: the snapshot whose last event is the most recent
      event of the history, or the zero event for an empty history. */
  function DeriveDeliveryFrom(s: RouteSpecification, i: Itinerary, h: HandlingHistory): (d: Delivery)
    ensures |h| == 0 ==> d.lastEvent == NoEvent
    ensures |h| > 0 ==> d.lastEvent == h[|h| - 1]
    ensures d.routeSpecification == s && d.itinerary == i
    ensures Consistent(d)
  {
    var (lastEvent, _) := MostRecentlyCompletedEvent(h);
    NewDelivery(lastEvent, i, s)
  }

  /** A cargo that has never been handled is not received, not misdirected,
      not unloaded at its destination and has the unknown location as its last
      known location. */
  lemma NeverHandled(s: RouteSpecification, i: Itinerary)
    ensures var d := DeriveDeliveryFrom(s, i, []);
      && d.transportStatus == NotReceived
      && !d.isMisdirected
      && !d.isUnloadedAtDestination
      && d.lastKnownLocation == ""
  {
  }

  /** Performing the activity a snapshot expects next never misdirects the
      cargo, and keeps an on-track cargo on track. */
  lemma NextExpectedActivityIsExpected(lastEvent: HandlingEvent, i: Itinerary, s: RouteSpecification, id: TrackingId)
    ensures var d := NewDelivery(lastEvent, i, s);
      var next := HandlingEvent(id, d.nextExpectedActivity);
      d.nextExpectedActivity != NoActivity ==>
        && IsExpected(i, next)
        && IsOnTrack(NewDelivery(next, i, s))
  {
    var d := NewDelivery(lastEvent, i, s);
    var next := HandlingEvent(id, d.nextExpectedActivity);
    if d.nextExpectedActivity != NoActivity {
      var legs := Legs(i);
      var a := d.nextExpectedActivity;
      var last := lastEvent.activity;
      assert IsOnTrack(d);
      IsExpectedMatchesSpec(i, next);
      if |legs| > 0 {
        if last.eventType == Load {
          var k := FirstLeg(legs, LoadingAt(last.location), 0).value;
          assert a == HandlingActivity(Unload, legs[k].unloadLocation, legs[k].voyageNumber);
          assert legs[k].unloadLocation == a.location && legs[k].voyageNumber == a.voyageNumber;
        } else if last.eventType == Unload {
          var k := FirstLeg(legs, UnloadingAt(last.location), 0).value;
          if k < |legs| - 1 {
            assert legs[k + 1].loadLocation == a.location && legs[k + 1].voyageNumber == a.voyageNumber;
          }
        }
      }
      assert IsExpected(i, next);
    }
  }
}
