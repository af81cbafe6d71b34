/** Cargo inspection: re-deriving a cargo's delivery from its full handling
    history, storing it back and notifying interested parties when the cargo
    went astray or reached its destination. The event handler is a log of the
    notifications it received. */
module Inspection {
  import opened Wrappers
  import opened Shipping
  import opened HandlingEvents
  import opened Itineraries
  import opened RouteSpecs
  import opened Deliveries
  import opened Cargos
  import CargoRepository
  import HandlingEventRepository

  /** A call on the inspection event handler, with the cargo it was given. */
  datatype Notification =
    | CargoWasMisdirected(cargo: Cargo)
    | CargoHasArrived(cargo: Cargo)

  /** The last handled event of `h` was not expected on itinerary `i`. */
  ghost predicate WentAstray(h: HandlingHistory, i: Itinerary) {
    |h| > 0 && h[|h| - 1].activity.eventType != NotHandled && !ExpectedBySpec(i, h[|h| - 1])
  }

  /** The last event of `h` unloaded the cargo at `destination`. */
  predicate ArrivedAt(h: HandlingHistory, destination: UNLocode) {
    |h| > 0 && h[|h| - 1].activity.eventType == Unload && h[|h| - 1].activity.location == destination
  }

  /** Inspects the cargo stored under `id`. An unknown id changes nothing and
      notifies no one. A known cargo has its delivery re-derived from its
      whole history and is stored back; the handler hears first that it was
      misdirected (when its last event was not expected on its itinerary),
      then that it arrived (when its last event unloaded it at its
      destination), each at most once. */
  function InspectCargo(
    cargos: CargoRepository.Repo, events: HandlingEventRepository.Repo,
    log: seq<Notification>, id: TrackingId): (r: (CargoRepository.Repo, seq<Notification>))
    ensures id !in cargos ==> r == (cargos, log)
    ensures |log| <= |r.1| <= |log| + 2 && r.1[..|log|] == log
    ensures id in cargos ==>
      var c, h := cargos[id], HandlingEventRepository.QueryHandlingHistory(events, id);
      var c' := DeriveDeliveryProgress(c, h);
      var added := r.1[|log|..];
      && r.0 == CargoRepository.Store(cargos, c')
      && (CargoWasMisdirected(c') in added <==> WentAstray(h, c.itinerary))
      && (CargoHasArrived(c') in added <==> ArrivedAt(h, c.routeSpecification.destination))
      && (forall n :: n in added ==> n.cargo == c')
      && (|added| == 2 ==> added[0].CargoWasMisdirected? && added[1].CargoHasArrived?)
  {
    match CargoRepository.Find(cargos, id)
    case Failure(_) => (cargos, log)
    case Success(c) =>
      var h := HandlingEventRepository.QueryHandlingHistory(events, id);
      var c' := DeriveDeliveryProgress(c, h);
      var ns := Notices(c');
      DerivedFlags(c, h);
      assert (log + ns)[|log|..] == ns;
      (CargoRepository.Store(cargos, c'), log + ns)
  }

  /** The calls the handler receives for an inspected cargo: misdirected
      first, then arrived, each only when its flag is set. */
  function Notices(c: Cargo): (ns: seq<Notification>)
    ensures CargoWasMisdirected(c) in ns <==> c.delivery.isMisdirected
    ensures CargoHasArrived(c) in ns <==> c.delivery.isUnloadedAtDestination
    ensures forall n :: n in ns ==> n.cargo == c
    ensures |ns| <= 2
    ensures |ns| == 2 ==> ns[0].CargoWasMisdirected? && ns[1].CargoHasArrived?
  {
    (if c.delivery.isMisdirected then [CargoWasMisdirected(c)] else []) +
    (if c.delivery.isUnloadedAtDestination then [CargoHasArrived(c)] else [])
  }

  /** The two flags of a re-derived delivery read off the last event of the
      history. */
  lemma DerivedFlags(c: Cargo, h: HandlingHistory)
    ensures DeriveDeliveryProgress(c, h).delivery.isMisdirected <==> WentAstray(h, c.itinerary)
    ensures DeriveDeliveryProgress(c, h).delivery.isUnloadedAtDestination <==>
      ArrivedAt(h, c.routeSpecification.destination)
  {
    if |h| > 0 {
      IsExpectedMatchesSpec(c.itinerary, h[|h| - 1]);
    }
  }

  /** Inspection stores the cargo back under its own id with a delivery whose
      last event is the last event of the cargo's history. */
  lemma InspectionRecordsLastEvent(cargos: CargoRepository.Repo, events: HandlingEventRepository.Repo,
                                   log: seq<Notification>, id: TrackingId)
    requires id in cargos && CargoRepository.KeyedById(cargos)
    requires |HandlingEventRepository.QueryHandlingHistory(events, id)| > 0
    ensures
      var h := HandlingEventRepository.QueryHandlingHistory(events, id);
      var stored := CargoRepository.Find(InspectCargo(cargos, events, log, id).0, id);
      && stored.Success?
      && stored.value.delivery.lastEvent == h[|h| - 1]
      && Valid(stored.value)
  {
    var h := HandlingEventRepository.QueryHandlingHistory(events, id);
    var c' := DeriveDeliveryProgress(cargos[id], h);
    assert c'.trackingId == id;
  }
}
