# Cargo tracking domain and services, in Dafny

This project models the core of a Go domain-driven-design sample. The sample books
cargo, routes it over voyages, registers handling events and tracks deliveries. The
model covers the following, all as pure functions over immutable values.

- **Itinerary.** Legs, the departure and arrival ends, and whether a handling event
  is expected on the route. A nil leg slice is kept apart from an empty one: legs
  are `Option<seq<Leg>>`, and `None` is Go's nil.
- **Delivery.** The snapshot derived from the last handling event, the itinerary and
  the route specification. It holds the routing and transport status, the
  misdirected and unloaded-at-destination flags, the last known location and the
  next expected activity.
- **Cargo aggregate.** Construction, re-specifying the route, assigning an itinerary,
  deriving progress from a history, and identity.
- **Handling history.** The most recent event and the handling-event factory.
- **Repositories.** The in-memory cargo, handling-event, location and voyage
  repositories, as maps. The location and voyage repositories hold their seed data.
- **Booking service.** Booking, loading, routing, changing the destination, and the
  two list views.
- **Handling service and inspection.** Registering an event and the handler it
  notifies. Inspection re-derives the delivery and records misdirected and arrived
  notifications in a log.
- **Tracking read model.** The status text, the next-activity sentence, and the leg
  and event views.
- **Request decoding.** The booking HTTP requests and the pure helpers of the HTTP
  front end: parameter validation, the event-type lookup, the port, and the parameter
  check of the book-cargo handler.
- **Scenarios.** The life cycle of a cargo from Hongkong to Stockholm, and the test
  scenarios of the inspection and handling services, each as a lemma.

Some values are opaque to the model, so they are parameters:

- the fresh tracking id
- the registration clock
- the routing service
- the handling-event factory
- `HandlingEventType.String`
- the formatted time stamp in event descriptions

Times are whole seconds since the Unix epoch. Go's zero time is the constant
`ZeroTime`.

Go's integer division truncates toward zero. It is written out as `GoLib.Quot`.
`strconv.ParseInt` with its error ignored is `GoLib.ParseInt64`: text that is not a
number reads as 0, and text out of range is clamped.

The `CurrentVoyage` field of a delivery is read by the tracking status text, but no
modelled file computes it. `Tracking.CurrentVoyage` takes it to be the last event's
voyage while the cargo is onboard a carrier, and `""` otherwise. That is the value
`cmd/shippingsvc/main_test.go` expects at every step of its walk.

## Model

| member | source | states |
|---|---|---|
| `Itineraries.MakeLeg` | itinerary.go:17-25 | the leg carries exactly the five arguments |
| `Itineraries.InitialDepartureLocation` | itinerary.go:34-39 | `""` for an itinerary without legs, otherwise the first leg's load location |
| `Itineraries.FinalArrivalLocation` | itinerary.go:42-47 | `""` for an itinerary without legs, otherwise the last leg's unload location |
| `Itineraries.FinalArrivalTime` | itinerary.go:50-52 | the last leg's unload time; callable only with at least one leg, since Go indexes the last leg |
| `Itineraries.FirstLeg` | domain/cargo/delivery.go:98-112 | the index of the first leg satisfying the test, and none exactly when no leg does |
| `Itineraries.IsExpectedMatchesSpec` | itinerary.go:61-88 | the leg-scanning check agrees with a declarative statement: everything is expected when there are no legs; Receive at the departure; Claim at the arrival; Load or Unload when some leg matches both location and voyage; anything else is expected |
| `Itineraries.ExpectedOnSampleItinerary` | itinerary_test.go:26-75 | every row of the test table: the zero event on an empty itinerary, and each activity on the two-leg 001A itinerary |
| `RouteSpecs.IsSatisfiedBy` | domain/cargo/cargo.go:102-106 | satisfied exactly when the legs are not nil and the origin and destination match the two ends |
| `RouteSpecs.RoutingStatusString` | domain/cargo/cargo.go:66-76 | one text per named status, and `""` exactly for out-of-range values |
| `RouteSpecs.TransportStatusString` | domain/cargo/cargo.go:88-94 | only InPort has a text |
| `Deliveries.CalculateRoutingStatus` | domain/cargo/delivery.go:39-49 | NotRouted exactly for nil legs; Routed exactly when the specification is satisfied; Misrouted otherwise |
| `Deliveries.CalculateMisdirectedStatus` | domain/cargo/delivery.go:51-57 | misdirected exactly when the event happened and the itinerary does not expect it |
| `Deliveries.CalculateUnloadedAtDestination` | domain/cargo/delivery.go:59-65 | exactly an Unload at the destination |
| `Deliveries.CalculateTransportStatus` | domain/cargo/delivery.go:67-83 | each status for exactly its event types, and Unknown for every other type |
| `Deliveries.CalculateNextExpectedActivity` | domain/cargo/delivery.go:89-116 | the zero activity off track; Receive at the origin before any event; after a Load, Unload where the first leg loading there ends; after an Unload, Load on the next leg or Claim at the last leg's end; nothing otherwise |
| `Deliveries.NewDelivery` | domain/cargo/delivery.go:118-142 | the snapshot keeps its inputs and holds each derived field, including the misdirected and unloaded flags as iffs |
| `Deliveries.UpdateOnRouting` | domain/cargo/delivery.go:22-24 | keeps the last event and is consistent with the new specification and itinerary |
| `Deliveries.UpdateOnRoutingForgetsEarlierRouting` | domain/cargo/delivery.go:22-24 | rerouting twice equals rerouting once to the final values |
| `Deliveries.UpdateOnRoutingIdempotent` | domain/cargo/delivery.go:22-24 | rerouting a consistent snapshot to its own values changes nothing |
| `Deliveries.DeriveDeliveryFrom` | domain/cargo/delivery.go:34-37 | the last event is the history's last, or the zero event for an empty history, and the snapshot is consistent |
| `Deliveries.NeverHandled` | domain/cargo/cargo_test.go:111-118 | a cargo with no events is not received, not misdirected, not unloaded, and has location `""` |
| `Deliveries.NextExpectedActivityIsExpected` | domain/cargo/delivery.go:89-116 | performing the announced next activity is expected on the itinerary and keeps the cargo on track |
| `Cargos.NewCargo` | domain/cargo/cargo.go:44-56 | id, origin and specification as given, nil itinerary, NotRouted, NotReceived, no flags, nothing expected |
| `Cargos.SpecifyNewRoute` | domain/cargo/cargo.go:26-29 | only the specification changes; the delivery is re-derived and keeps the last event |
| `Cargos.AssignToRoute` | domain/cargo/cargo.go:31-34 | only the itinerary changes; the delivery is re-derived and keeps the last event |
| `Cargos.DeriveDeliveryProgress` | domain/cargo/cargo.go:36-38 | only the delivery changes, and its last event is the history's last |
| `Cargos.AssignToRouteStatus` | domain/cargo/cargo.go:31-34 | the assigned itinerary routes the cargo exactly when it satisfies the specification |
| `Cargos.IdentityIgnoresSpecification` | domain/cargo/cargo.go:40-42 | two cargos are the same entity exactly when their ids are equal, whatever their specifications |
| `Cargos.OperationsKeepValid` | domain/cargo/cargo.go:26-56 | every operation leaves a snapshot derived from the cargo's own fields |
| `Cargos.RoutingStatusProgression` | domain/cargo/cargo_test.go:81-109 | NotRouted after booking, Misrouted with a wrong itinerary, Routed with a right one |
| `HandlingEvents.MostRecentlyCompletedEvent` | domain/cargo/handling.go:39-45 | the zero event and an error for an empty history, otherwise the last event and no error |
| `HandlingEvents.MostRecentIsLastAppended` | domain/cargo/handling.go:39-45 | an appended event is the most recent one |
| `HandlingEvents.CreateHandlingEvent` | domain/cargo/handling.go:67-76 | fails with the factory's error exactly when the cargo is unknown, and otherwise yields the zero event |
| `CargoRepository.Store` | inmem/cargo.go:21-26 | after a store, finding the id gives the cargo; every other id is unchanged |
| `CargoRepository.Find` | inmem/cargo.go:28-35 | success exactly for a stored id, with the stored cargo; otherwise the unknown-cargo error |
| `CargoRepository.NewRepoIsEmpty` | inmem/cargo.go:15-19 | a fresh repository knows no id |
| `CargoRepository.StoreKeepsKeyedById` | inmem/cargo.go:21-26 | storing keeps every cargo under its own id |
| `CargoRepository.FindAll` | inmem/cargo.go:37-45 | one value per stored id, all of them, in some order |
| `Collections.Values` | inmem/cargo.go:40-44 | ranging over a map lists each key's value once |
| `HandlingEventRepository.QueryHandlingHistory` | inmem/handling_event.go:32-36 | an id never stored has an empty history; the history holds only that id's events |
| `HandlingEventRepository.Store` | inmem/handling_event.go:22-30 | the event is appended to its own id's history, and no other history changes |
| `HandlingEventRepository.HistoryIsInsertionOrder` | inmem/handling_event.go:22-36 | after a run of stores, each history grows by exactly its own events, in order |
| `HandlingEventRepository.HistoryFromEmpty` | inmem/handling_event.go:16-36 | from a fresh repository, a history is exactly its id's events in store order |
| `LocationRepository.NewLocationRepository` | inmem/location.go:10-23 | exactly the six sample locations, each under its own code |
| `LocationRepository.Find` | inmem/location.go:25-30 | a known code gives its location, any other the unknown-location error |
| `LocationRepository.FindSeeded` | inmem/location.go:25-30 | on the seeded repository, success exactly for the six codes |
| `LocationRepository.FindAll` | inmem/location.go:32-38 | one location per code, all of them |
| `VoyageRepository.NewVoyageRepository` | inmem/voyage.go:10-26 | exactly the eight sample voyage numbers, each under its own number |
| `VoyageRepository.Find` | inmem/voyage.go:28-34 | a known number gives its voyage, any other the unknown-voyage error |
| `VoyageRepository.FindSeeded` | inmem/voyage.go:28-34 | on the seeded repository, success exactly for the eight numbers |
| `BookingService.Assemble` | booking/service.go:187-197 | copies the id, origin, destination and deadline; misrouted exactly when the status is Misrouted; routed exactly when there are legs; legs copied as they are, nil included |
| `BookingService.BookNewCargo` | booking/service.go:74-93 | the invalid-argument error, with nothing stored, exactly for an empty origin or destination or a zero deadline; otherwise the fresh id, under which the new cargo is found, and no other id changes |
| `BookingService.LoadCargo` | booking/service.go:95-106 | invalid argument for an empty id, unknown cargo for an id not stored, otherwise the read model of the stored cargo |
| `BookingService.AssignCargoToRoute` | booking/service.go:59-72 | invalid argument for an empty id or no legs, before any lookup; then unknown cargo; otherwise the cargo is stored with the itinerary assigned |
| `BookingService.ChangeDestination` | booking/service.go:108-134 | the three errors in their order, and nothing stored on error; on success the cargo is stored with the origin and deadline kept and the found location's code as destination |
| `BookingService.RequestPossibleRoutesForCargo` | booking/service.go:136-147 | nil for an empty id, an empty list for an unknown cargo, otherwise the routing service's answer for the cargo's specification |
| `BookingService.ListCargos` | booking/service.go:149-156 | one read model per stored cargo, each the read model of its cargo |
| `BookingService.ListLocations` | booking/service.go:158-168 | one view per location, each carrying the location's code and name |
| `BookingService.BookThenLoad` | booking/service_test.go:12-47 | a cargo booked with valid arguments loads back with the given origin, destination and deadline, unrouted, not misrouted, with nil legs |
| `BookingService.BookRequestAssign` | booking/service_test.go:61-123 | book, request routes from a stub and assign the first one: the cargo is routed; an unknown id gets no routes |
| `BookingService.ChangeDestinationKeepsOriginAndDeadline` | booking/service_test.go:125-176 | a changed destination keeps origin and deadline and replaces only the destination |
| `HandlingService.RegisterHandlingEvent` | handling/service.go:44-59 | invalid arguments and factory errors are returned with nothing stored and no one notified; otherwise the event is stored and the handler is notified once with it |
| `HandlingService.CargoWasHandled` | handling/service.go:65-67 | inspects the cargo named by the event |
| `HandlingService.RegisterAndInspect` | handling/service.go:44-67 | on error neither repository nor the notification log changes |
| `HandlingService.StoreBeforeNotify` | handling/service.go:55-58 | because the store comes before the notification, the inspected cargo is stored with the new event as its last event |
| `Inspection.InspectCargo` | inspection/inspection.go:29-48 | an unknown id changes nothing; otherwise the cargo is stored with its re-derived delivery; a misdirected notice appears exactly when the last event is not expected, and an arrived notice exactly when it is an unload at the destination, in that order |
| `Inspection.Notices` | inspection/inspection.go:39-45 | each notice exactly when its flag is set, about the given cargo, misdirected first |
| `Inspection.DerivedFlags` | inspection/inspection.go:35-45 | the re-derived flags in terms of the history's last event and the itinerary |
| `Inspection.InspectionRecordsLastEvent` | inspection/inspection.go:35-47 | after inspection the stored cargo's last event is its history's last |
| `Tracking.NextExpectedActivityText` | tracking/tracking.go:79-93 | the fixed sentence for no activity; "onto voyage" and "off of voyage" for loads and unloads; only the location otherwise |
| `Tracking.NothingExpectedIffNotHandled` | tracking/tracking.go:79-93 | the fixed sentence appears exactly when no activity is expected; otherwise the text starts with the prefix |
| `Tracking.AnnouncedActivityNamesLocation` | tracking/tracking.go:83-92 | every announced activity ends with its location |
| `Tracking.CurrentVoyage` | cmd/shippingsvc/main_test.go:116-237 | the last event's voyage while onboard, and `""` otherwise |
| `Tracking.StatusText` | tracking/tracking.go:95-108 | one text per transport status, and "Unknown" for the rest |
| `Tracking.StatusFromLastEvent` | tracking/tracking.go:95-108 | for a delivery derived from a non-empty history, the status text is read off the last event: its location in port, its voyage onboard, claimed, or not received |
| `Tracking.Description` | tracking/tracking.go:130-145 | one description per event type, with the stamp, and "[Unknown status]" for the rest |
| `Tracking.AssembleLegs` | tracking/tracking.go:110-122 | one view per leg, in order, with the fields copied; nil when there are no legs |
| `Tracking.AssembleEvents` | tracking/tracking.go:124-151 | one view per handling event of the cargo, in order, with its description and expected exactly when the itinerary expects it |
| `Tracking.Assemble` | tracking/tracking.go:63-77 | the copied fields, the misrouted and routed flags, the status and next-activity text, one leg view per leg with its fields, and one event view per history event with its description and expected flag |
| `Tracking.Track` | tracking/tracking.go:20-26 | the unknown-cargo error exactly for an id not stored |
| `Tracking.LastEventViewMatchesMisdirected` | tracking/tracking.go:124-151 | the last event view is unexpected exactly when the delivery is misdirected |
| `BookingTransport.GetParam` | booking/transport.go:163-172 | the form value first, then the query value, and `""` exactly when both are empty |
| `BookingTransport.BookFields` | booking/transport.go:31-51 | a JSON request takes the body or its decoding error; any other takes the form and query, with the deadline parsed |
| `BookingTransport.DecodeBookCargoRequest` | booking/transport.go:24-62 | missing parameters exactly for an empty origin or destination or a zero deadline; the deadline in milliseconds becomes seconds truncated toward zero |
| `BookingTransport.NonNumericDeadlineRejected` | booking/transport.go:49-55 | a form deadline that is not a number is rejected as missing |
| `BookingTransport.FormDeadlineRoundTrip` | booking/transport.go:46-60 | a non-zero deadline written in decimal decodes back to its value |
| `BookingTransport.DecodeRequestRoutesRequest` | booking/transport.go:64-73 | missing parameters exactly for an empty id |
| `BookingTransport.RouteLegs` | booking/transport.go:87-96 | one cargo leg per route leg, in order; nil for a route without legs |
| `BookingTransport.DecodeAssignToRouteRequest` | booking/transport.go:75-105 | a body error first, then a missing id; otherwise the route's legs as the itinerary |
| `BookingTransport.DecodeChangeDestinationRequest` | booking/transport.go:107-134 | a JSON body error first; then missing parameters exactly for an empty id or destination |
| `GoLib.Quot` | booking/transport.go:60 | Go's truncating quotient: the remainder takes the dividend's sign and is smaller than the divisor |
| `GoLib.Unix` | booking/transport.go:60 | `time.Unix(sec, 0)` is the zero time exactly at the zero time's second |
| `GoLib.ParseInt64` | booking/transport.go:49-50 | always an int64, and 0 for text that is not a decimal number |
| `GoLib.ParseFormatRoundTrip` | booking/transport.go:49-50 | parsing the decimal text of any int64 gives it back |
| `GoLib.ContainsAtOffset` | booking/transport.go:31 | `strings.Contains` holds exactly when the substring occurs at some offset |
| `MainHelpers.Port` | main.go:105-111 | the environment value when set, otherwise "8080" |
| `MainHelpers.ValidateQueryParams` | main.go:380-393 | found holds exactly the requested names with a non-empty first value; missing lists the others in request order; each name is in exactly one of the two |
| `MainHelpers.StringToEventType` | main.go:351-360 | a named type whose name is the string, and NotHandled exactly when no name matches |
| `MainHelpers.StringToEventTypeInvertsName` | main.go:351-360 | with distinct names, each named type reads back from its name |
| `MainHelpers.BookCargoHandler` | main.go:253-294 | 405 for a method other than POST; 400 with nothing booked when a parameter is missing; with every parameter present, 200 with the booked repository exactly when booking with the parsed deadline succeeds, and 400 with nothing booked otherwise |
| `MainHelpers.NonNumericDeadlineBooksAtEpoch` | main.go:274-275 | a non-numeric deadline books the cargo at the Unix epoch instead of rejecting it |
| `Lifecycle.RegisterStep` | cmd/shippingsvc/main_test.go:97-106 | a valid registration stores the event and re-derives the stored cargo from it |
| `Lifecycle.Booking` | cmd/shippingsvc/main_test.go:57-73 | after booking: not received, not routed, not misdirected, no itinerary, nothing expected |
| `Lifecycle.Routing` | cmd/shippingsvc/main_test.go:75-91 | after routing: routed, not misdirected, and expected to be received in Hongkong |
| `Lifecycle.ReceivedInHongkong` | cmd/shippingsvc/main_test.go:93-105 | the registration stores the cargo in port at Hongkong |
| `Lifecycle.LoadedInHongkong` | cmd/shippingsvc/main_test.go:107-117 | onboard V100 and expected to be unloaded in New York |
| `Lifecycle.UnknownVoyageAndLocationRefused` | cmd/shippingsvc/main_test.go:119-128 | the unknown voyage and location are refused and nothing changes |
| `Lifecycle.MisdirectedInTokyo` | cmd/shippingsvc/main_test.go:130-146 | unloaded in Tokyo: in port, on no voyage, misdirected, nothing expected |
| `Lifecycle.Rerouting` | cmd/shippingsvc/main_test.go:148-174 | misrouted under the new specification, then routed on the stub's Tokyo route |
| `Lifecycle.LoadedInTokyo` | cmd/shippingsvc/main_test.go:180-190 | onboard V300 and expected to be unloaded in Hamburg |
| `Lifecycle.UnloadedInHamburg` | cmd/shippingsvc/main_test.go:192-202 | in port at Hamburg and expected to be loaded onto V400 |
| `Lifecycle.LoadedInHamburg` | cmd/shippingsvc/main_test.go:204-214 | onboard V400 and expected to be unloaded in Stockholm |
| `Lifecycle.UnloadedInStockholm` | cmd/shippingsvc/main_test.go:216-226 | in port at Stockholm and expected to be claimed there |
| `Lifecycle.Claimed` | cmd/shippingsvc/main_test.go:228-238 | claimed, not misdirected, nothing more expected |
| `Lifecycle.InspectMisdirectedCargo` | inspection/inspection_test.go:31-69 | an unload off the route yields exactly one misdirected notice |
| `Lifecycle.InspectUnloadedCargo` | inspection/inspection_test.go:71-111 | an unload at the destination yields exactly one arrived notice |
| `Lifecycle.RegisterKnownThenUnknown` | handling/service_test.go:21-81 | a known cargo registers, an unknown one fails with the unknown-cargo error, and the handler saw one event |

## Left out

- HTTP wiring is not modelled: routers, handlers other than the book-cargo parameter check, JSON encoding, CORS and server set-up are I/O plumbing. A request is a record of the values `net/http` has already extracted.
- `FormValue` also reads the URL query. The request record keeps form and query values apart and does not merge them.
- The book-cargo handler's 404 and 500 answers are not modelled. After a successful booking, finding the cargo cannot fail, and the 500 answer is a JSON encoding failure.
- MongoDB, App Engine and the routing proxy are foreign services. The routing service is a function parameter.
- The mutexes of the in-memory repositories are not modelled: the repositories are sequential maps.
- Logging and instrumenting wrappers are not modelled; their only effects are logs and metrics.
- The browser client is UI code driven by callbacks and is not modelled.
- The estimated time of arrival is not modelled. No modelled file computes `ETA`, so the test checks on it are left out.
- `time.Now`, uuid tracking ids, and the body of `MakeHandlingEvent` are opaque. The first two are parameters, and the factory is a function parameter.
- The superseded copies of the domain in older packages are not modelled, because their definitions conflict with the canonical ones.
- `Lifecycle.CheckingFactory` is an assumption. It checks the cargo, then the voyage, then the location, and builds the event from its arguments. The body of `MakeHandlingEvent` is not part of this model.
- VoyageRepository.NewVoyageRepository: states the voyage numbers and that each is stored under its own number, but not the seeded carrier movements.
- Tracking.Track: on success states the tracking id and status text of the view only. The rest of the view is stated by `Tracking.Assemble`.
- Tracking.AssembleEvents: one time stamp is passed in and shared by every event of a view. Go formats `time.Now()` once per event, so its stamps can differ when the clock crosses a second while the view is built.
- BookingService.ListCargos: lists one read model per cargo but does not keep Go's map iteration order, which is unspecified.
- Tracking.CurrentVoyage: no modelled file computes it. The value is read off the last event, as the end-to-end test expects.
