/** The tracking read model: the texts and views a customer sees when
    tracking a cargo. `HandlingEventType.String` followed by lower-casing is
    a parameter, and so is the formatted current time that event
    descriptions end with. */
module Tracking {
  import opened Wrappers
  import opened Shipping
  import opened HandlingEvents
  import opened Itineraries
  import opened RouteSpecs
  import opened Deliveries
  import opened Cargos
  import CargoRepository
  import HandlingEventRepository

  /** A lower-cased event type name, as `strings.ToLower(t.String())`. */
  type TypeName = HandlingEventType -> string

  datatype LegView = LegView(voyageNumber: VoyageNumber, from: UNLocode, to: UNLocode, loadTime: Time, unloadTime: Time)

  datatype EventView = EventView(description: string, expected: bool)

  /** The tracking read model of a cargo; `legs == None` is the nil slice
      that JSON leaves out. */
  datatype TrackingCargo = TrackingCargo(
    trackingId: TrackingId,
    statusText: string,
    origin: UNLocode,
    destination: UNLocode,
    nextExpectedActivity: string,
    misrouted: bool,
    routed: bool,
    arrivalDeadline: Time,
    events: seq<EventView>,
    legs: Option<seq<LegView>>)

  /** The two sentence openings, written with their first word apart so that
      the verifier can tell them apart by their first letter. */
  const Prefix := "Next" + " expected activity is to"
  const NothingExpected := "There" + " are currently no expected activities for this cargo."

  /** `t` starts with `p`. */
  predicate StartsWith(t: string, p: string) {
    |p| <= |t| && t[..|p|] == p
  }

  /** `t` ends with `p`. */
  predicate EndsWith(t: string, p: string) {
    |p| <= |t| && t[|t| - |p|..] == p
  }

  /** The next-activity sentence. Loading and unloading name the voyage and
      the location, every other type only the location, and an activity that
      has not happened gets the fixed sentence. */
  function NextExpectedActivityText(a: HandlingActivity, name: TypeName): (text: string)
    ensures a.eventType == NotHandled ==> text == NothingExpected
    ensures a.eventType == Load ==>
      text == Prefix + " " + name(Load) + " cargo onto voyage " + a.voyageNumber + " in " + a.location + "."
    ensures a.eventType == Unload ==>
      text == Prefix + " " + name(Unload) + " cargo off of voyage " + a.voyageNumber + " in " + a.location + "."
    ensures a.eventType !in {NotHandled, Load, Unload} ==>
      text == Prefix + " " + name(a.eventType) + " cargo in " + a.location + "."
  {
    var t := a.eventType;
    if t == Load then Prefix + " " + name(t) + " cargo onto voyage " + a.voyageNumber + " in " + a.location + "."
    else if t == Unload then Prefix + " " + name(t) + " cargo off of voyage " + a.voyageNumber + " in " + a.location + "."
    else if t == NotHandled then NothingExpected
    else Prefix + " " + name(t) + " cargo in " + a.location + "."
  }

  /** The fixed sentence is shown exactly when nothing is expected; every
      other sentence announces an activity. */
  lemma NothingExpectedIffNotHandled(a: HandlingActivity, name: TypeName)
    ensures NextExpectedActivityText(a, name) == NothingExpected <==> a.eventType == NotHandled
    ensures a.eventType != NotHandled ==> StartsWith(NextExpectedActivityText(a, name), Prefix)
  {
    if a.eventType != NotHandled {
      var text := NextExpectedActivityText(a, name);
      var rest := text[|Prefix|..];
      assert text == Prefix + rest;
      assert text[0] == Prefix[0] == 'N';
      assert NothingExpected[0] == 'T';
    }
  }

  /** Every sentence that announces an activity ends with its location. */
  lemma AnnouncedActivityNamesLocation(a: HandlingActivity, name: TypeName)
    requires a.eventType != NotHandled
    ensures EndsWith(NextExpectedActivityText(a, name), " in " + a.location + ".")
  {
    var text := NextExpectedActivityText(a, name);
    var tail := " in " + a.location + ".";
    var head := text[..|text| - |tail|];
    assert text == head + tail;
  }

  /** The voyage the cargo is on: the voyage of its last event while it is
      onboard a carrier, and none otherwise. */
  function CurrentVoyage(d: Delivery): (v: VoyageNumber)
    ensures d.transportStatus == OnboardCarrier ==> v == d.lastEvent.activity.voyageNumber
    ensures d.transportStatus != OnboardCarrier ==> v == ""
  {
    if d.transportStatus == OnboardCarrier then d.lastEvent.activity.voyageNumber else ""
  }

  /** The status line for each transport status; any other value is
      "Unknown". */
  function StatusText(d: Delivery): (text: string)
    ensures d.transportStatus == NotReceived ==> text == "Not received"
    ensures d.transportStatus == InPort ==> text == "In port " + d.lastKnownLocation
    ensures d.transportStatus == OnboardCarrier ==> text == "Onboard voyage " + CurrentVoyage(d)
    ensures d.transportStatus == Claimed ==> text == "Claimed"
    ensures d.transportStatus !in {NotReceived, InPort, OnboardCarrier, Claimed} ==> text == "Unknown"
  {
    match d.transportStatus
    case 0 => "Not received"
    case 1 => "In port " + d.lastKnownLocation
    case 2 => "Onboard voyage " + CurrentVoyage(d)
    case 3 => "Claimed"
    case _ => "Unknown"
  }

  /** For a snapshot derived from a non-empty history, the status line is
      read off the last event: in port where it happened, onboard its voyage,
      or claimed. */
  lemma StatusFromLastEvent(s: RouteSpecification, i: Itinerary, h: HandlingHistory)
    requires |h| > 0
    ensures var e, text := h[|h| - 1].activity, StatusText(DeriveDeliveryFrom(s, i, h));
      && (e.eventType in {Unload, Receive, Customs} ==> text == "In port " + e.location)
      && (e.eventType == Load ==> text == "Onboard voyage " + e.voyageNumber)
      && (e.eventType == Claim ==> text == "Claimed")
      && (e.eventType == NotHandled ==> text == "Not received")
  {
  }

  /** What the history shows for one event; `stamp` is the formatted current
      time. */
  function Description(e: HandlingEvent, stamp: string): (text: string)
    ensures e.activity.eventType == NotHandled ==> text == "Cargo has not yet been received."
    ensures e.activity.eventType == Receive ==> text == "Received in " + e.activity.location + ", at " + stamp
    ensures e.activity.eventType == Load ==>
      text == "Loaded onto voyage " + e.activity.voyageNumber + " in " + e.activity.location + ", at " + stamp + "."
    ensures e.activity.eventType == Unload ==>
      text == "Unloaded off voyage " + e.activity.voyageNumber + " in " + e.activity.location + ", at " + stamp + "."
    ensures e.activity.eventType == Claim ==> text == "Claimed in " + e.activity.location + ", at " + stamp + "."
    ensures e.activity.eventType == Customs ==> text == "Cleared customs in " + e.activity.location + ", at " + stamp + "."
    ensures e.activity.eventType !in {NotHandled, Receive, Load, Unload, Claim, Customs} ==> text == "[Unknown status]"
  {
    var a := e.activity;
    match a.eventType
    case 0 => "Cargo has not yet been received."
    case 3 => "Received in " + a.location + ", at " + stamp
    case 1 => "Loaded onto voyage " + a.voyageNumber + " in " + a.location + ", at " + stamp + "."
    case 2 => "Unloaded off voyage " + a.voyageNumber + " in " + a.location + ", at " + stamp + "."
    case 4 => "Claimed in " + a.location + ", at " + stamp + "."
    case 5 => "Cleared customs in " + a.location + ", at " + stamp + "."
    case _ => "[Unknown status]"
  }

  /** One view per leg, in order, with its fields copied; nil when the
      itinerary has no legs. */
  method AssembleLegs(i: Itinerary) returns (legs: Option<seq<LegView>>)
    ensures legs.None? <==> |Legs(i)| == 0
    ensures legs.Some? ==> |legs.value| == |Legs(i)|
    ensures legs.Some? ==> forall k :: 0 <= k < |legs.value| ==>
      var l := Legs(i)[k];
      legs.value[k] == LegView(l.voyageNumber, l.loadLocation, l.unloadLocation, l.loadTime, l.unloadTime)
  {
    var ls := Legs(i);
    legs := None;
    var k := 0;
    while k < |ls|
      invariant 0 <= k <= |ls|
      invariant legs.None? <==> k == 0
      invariant legs.Some? ==> |legs.value| == k
      invariant legs.Some? ==> forall j :: 0 <= j < k ==>
        legs.value[j] == LegView(ls[j].voyageNumber, ls[j].loadLocation, ls[j].unloadLocation, ls[j].loadTime, ls[j].unloadTime)
    {
      var v := LegView(ls[k].voyageNumber, ls[k].loadLocation, ls[k].unloadLocation, ls[k].loadTime, ls[k].unloadTime);
      legs := Some(legs.GetOr([]) + [v]);
      k := k + 1;
    }
  }

  /** One view per event of the cargo's history, in order: its description
      and whether the itinerary expected it. */
  method AssembleEvents(c: Cargo, events: HandlingEventRepository.Repo, stamp: string) returns (vs: seq<EventView>)
    ensures var h := HandlingEventRepository.QueryHandlingHistory(events, c.trackingId);
      && |vs| == |h|
      && forall k :: 0 <= k < |vs| ==>
           vs[k].description == Description(h[k], stamp) && (vs[k].expected <==> ExpectedBySpec(c.itinerary, h[k]))
  {
    var h := HandlingEventRepository.QueryHandlingHistory(events, c.trackingId);
    vs := [];
    var k := 0;
    while k < |h|
      invariant 0 <= k <= |h|
      invariant |vs| == k
      invariant forall j :: 0 <= j < k ==>
        vs[j].description == Description(h[j], stamp) && (vs[j].expected <==> ExpectedBySpec(c.itinerary, h[j]))
    {
      IsExpectedMatchesSpec(c.itinerary, h[k]);
      vs := vs + [EventView(Description(h[k], stamp), IsExpected(c.itinerary, h[k]))];
      k := k + 1;
    }
  }

  /** The tracking read model of a cargo. */
  method Assemble(c: Cargo, events: HandlingEventRepository.Repo, name: TypeName, stamp: string)
    returns (v: TrackingCargo)
    ensures v.trackingId == c.trackingId && v.origin == c.origin
    ensures v.destination == c.routeSpecification.destination
    ensures v.arrivalDeadline == c.routeSpecification.arrivalDeadline
    ensures v.misrouted <==> c.delivery.routingStatus == Misrouted
    ensures v.routed <==> |Legs(c.itinerary)| > 0
    ensures v.statusText == StatusText(c.delivery)
    ensures v.nextExpectedActivity == NextExpectedActivityText(c.delivery.nextExpectedActivity, name)
    ensures v.legs.None? <==> |Legs(c.itinerary)| == 0
    ensures v.legs.Some? ==> |v.legs.value| == |Legs(c.itinerary)|
    ensures v.legs.Some? ==> forall k :: 0 <= k < |v.legs.value| ==>
      var l := Legs(c.itinerary)[k];
      v.legs.value[k] == LegView(l.voyageNumber, l.loadLocation, l.unloadLocation, l.loadTime, l.unloadTime)
    ensures var h := HandlingEventRepository.QueryHandlingHistory(events, c.trackingId);
      && |v.events| == |h|
      && forall k :: 0 <= k < |h| ==>
           v.events[k].description == Description(h[k], stamp) && (v.events[k].expected <==> ExpectedBySpec(c.itinerary, h[k]))
  {
    var legs := AssembleLegs(c.itinerary);
    var evs := AssembleEvents(c, events, stamp);
    v := TrackingCargo(
      trackingId := c.trackingId,
      statusText := StatusText(c.delivery),
      origin := c.origin,
      destination := c.routeSpecification.destination,
      nextExpectedActivity := NextExpectedActivityText(c.delivery.nextExpectedActivity, name),
      misrouted := c.delivery.routingStatus == Misrouted,
      routed := !IsEmpty(c.itinerary),
      arrivalDeadline := c.routeSpecification.arrivalDeadline,
      events := evs,
      legs := legs);
  }

  /** Tracks a cargo by id; an unknown id is reported by the repository. */
  method Track(cargos: CargoRepository.Repo, events: HandlingEventRepository.Repo, name: TypeName, stamp: string,
               id: TrackingId) returns (r: Result<TrackingCargo, Error>)
    ensures id !in cargos <==> r == Failure(ErrUnknownCargo)
    ensures r.Success? ==> r.value.trackingId == cargos[id].trackingId && r.value.statusText == StatusText(cargos[id].delivery)
  {
    match CargoRepository.Find(cargos, id)
    case Failure(e) =>
      r := Failure(e);
    case Success(c) =>
      var v := Assemble(c, events, name, stamp);
      r := Success(v);
  }

  /** For a cargo whose snapshot was derived from its stored history, the
      history view flags its last event as unexpected exactly when the
      snapshot calls the cargo misdirected. */
  lemma LastEventViewMatchesMisdirected(c: Cargo, events: HandlingEventRepository.Repo, vs: seq<EventView>, stamp: string)
    requires var h := HandlingEventRepository.QueryHandlingHistory(events, c.trackingId);
      && |h| > 0 && h[|h| - 1].activity.eventType != NotHandled
      && |vs| == |h|
      && forall k :: 0 <= k < |vs| ==> (vs[k].expected <==> ExpectedBySpec(c.itinerary, h[k]))
    ensures
      var d := DeriveDeliveryProgress(c, HandlingEventRepository.QueryHandlingHistory(events, c.trackingId)).delivery;
      vs[|vs| - 1].expected <==> !d.isMisdirected
  {
    var h := HandlingEventRepository.QueryHandlingHistory(events, c.trackingId);
    IsExpectedMatchesSpec(c.itinerary, h[|h| - 1]);
  }
}
