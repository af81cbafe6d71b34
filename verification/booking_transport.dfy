/** Decoding the booking HTTP requests into service arguments. A request is
    a record of what Go's `net/http` has already extracted from it: the
    Content-Type header, the form and query values, the route variables, and
    the body as decoded JSON or the error decoding produced. */
module BookingTransport {
  import opened Wrappers
  import opened Shipping
  import opened Itineraries
  import opened GoLib

  /** The JSON body of a book-cargo request. */
  datatype BookBody = BookBody(origin: string, destination: string, arrivalDeadline: Int64)

  /** The JSON body of a change-destination request. */
  datatype DestinationBody = DestinationBody(destination: string)

  /** One leg of a route proposed by the routing service. */
  datatype RouteLeg = RouteLeg(voyageNumber: string, from: string, to: string, loadTime: Time, unloadTime: Time)

  /** The JSON body of an assign-to-route request; JSON `null` legs and `[]`
      both range over nothing. */
  datatype Route = Route(legs: seq<RouteLeg>)

  /** What a handler sees of a request whose body decodes as `B`. `form` and
      `query` hold the first value of each key, as `FormValue` and
      `Query().Get` return them; an absent key reads as `""`. */
  datatype Request<B> = Request(
    contentType: string,
    form: map<string, string>,
    query: map<string, string>,
    vars: map<string, string>,
    body: Result<B, Error>)

  function Lookup(m: map<string, string>, key: string): string {
    if key in m then m[key] else ""
  }

  predicate IsJson<B>(r: Request<B>) {
    Contains(r.contentType, "application/json")
  }

  /** `getParam`: the form value when non-empty, otherwise the query value
      when non-empty, otherwise `""`. */
  function GetParam<B>(r: Request<B>, key: string): (v: string)
    ensures Lookup(r.form, key) != "" ==> v == Lookup(r.form, key)
    ensures Lookup(r.form, key) == "" && Lookup(r.query, key) != "" ==> v == Lookup(r.query, key)
    ensures v == "" <==> Lookup(r.form, key) == "" && Lookup(r.query, key) == ""
  {
    var f := Lookup(r.form, key);
    if f != "" then f
    else
      var q := Lookup(r.query, key);
      if q != "" then q else ""
  }

  datatype BookCargoRequest = BookCargoRequest(origin: UNLocode, destination: UNLocode, arrivalDeadline: Time)

  /** The origin, destination and deadline in milliseconds a book-cargo
      request carries: from the JSON body, or from the form and query with a
      malformed deadline read as 0. */
  function BookFields(r: Request<BookBody>): (f: Result<(string, string, Int64), Error>)
    ensures f.Failure? <==> IsJson(r) && r.body.Failure?
    ensures f.Failure? ==> f.error == r.body.error
    ensures IsJson(r) && r.body.Success? ==>
      f == Success((r.body.value.origin, r.body.value.destination, r.body.value.arrivalDeadline))
    ensures !IsJson(r) ==>
      f == Success((GetParam(r, "origin"), GetParam(r, "destination"), ParseInt64(GetParam(r, "arrival_deadline")) as Int64))
  {
    if IsJson(r) then
      var data :- r.body;
      Success((data.origin, data.destination, data.arrivalDeadline))
    else
      Success((GetParam(r, "origin"), GetParam(r, "destination"), ParseInt64(GetParam(r, "arrival_deadline")) as Int64))
  }

  /** `decodeBookCargoRequest`: an empty origin or destination or a zero
      deadline is reported as missing; the deadline in milliseconds becomes
      whole seconds, truncated toward zero. */
  function DecodeBookCargoRequest(r: Request<BookBody>): (res: Result<BookCargoRequest, Error>)
    ensures BookFields(r).Failure? ==> res == Failure(BookFields(r).error)
    ensures BookFields(r).Success? ==>
      var (origin, destination, millis) := BookFields(r).value;
      && (res.Failure? <==> origin == "" || destination == "" || millis == 0)
      && (res.Failure? ==> res.error == ErrMissingParameters)
      && (res.Success? ==> res.value == BookCargoRequest(origin, destination, Unix(Quot(millis, 1000))))
  {
    var (origin, destination, millis) :- BookFields(r);
    if origin == "" || destination == "" || millis == 0 then Failure(ErrMissingParameters)
    else Success(BookCargoRequest(origin, destination, Unix(Quot(millis, 1000))))
  }

  /** A form request whose deadline is not a decimal number reads it as 0 and
      is rejected as missing parameters. */
  lemma NonNumericDeadlineRejected(r: Request<BookBody>)
    requires !IsJson(r) && !IsDecimal(GetParam(r, "arrival_deadline"))
    ensures DecodeBookCargoRequest(r) == Failure(ErrMissingParameters)
  {
  }

  /** A form request carrying a non-zero deadline written out in decimal
      decodes to that many milliseconds, as whole seconds truncated toward
      zero: the deadline survives the trip through its text. */
  lemma FormDeadlineRoundTrip(r: Request<BookBody>, millis: Int64)
    requires !IsJson(r) && millis != 0
    requires GetParam(r, "origin") != "" && GetParam(r, "destination") != ""
    requires GetParam(r, "arrival_deadline") == FormatInt(millis)
    ensures DecodeBookCargoRequest(r) ==
      Success(BookCargoRequest(GetParam(r, "origin"), GetParam(r, "destination"), Unix(Quot(millis, 1000))))
  {
    ParseFormatRoundTrip(millis);
  }

  /** `decodeRequestRoutesRequest`: the cargo id from the route, which must
      not be empty. */
  function DecodeRequestRoutesRequest<B>(r: Request<B>): (res: Result<TrackingId, Error>)
    ensures res.Failure? <==> Lookup(r.vars, "id") == ""
    ensures res.Failure? ==> res.error == ErrMissingParameters
    ensures res.Success? ==> res.value == r.vars["id"]
  {
    var id := Lookup(r.vars, "id");
    if id == "" then Failure(ErrMissingParameters) else Success(id)
  }

  datatype AssignToRouteRequest = AssignToRouteRequest(id: TrackingId, itinerary: Itinerary)

  function ToLeg(l: RouteLeg): Leg {
    Leg(l.voyageNumber, l.from, l.to, l.loadTime, l.unloadTime)
  }

  /** The cargo legs of a route, one per route leg and in order, appended to
      a slice that starts out nil and so stays nil for a route without legs. */
  method RouteLegs(route: Route) returns (legs: Option<seq<Leg>>)
    ensures legs.None? <==> |route.legs| == 0
    ensures legs.Some? ==> |legs.value| == |route.legs|
    ensures legs.Some? ==> forall k :: 0 <= k < |route.legs| ==>
      legs.value[k] == Leg(route.legs[k].voyageNumber, route.legs[k].from, route.legs[k].to,
                           route.legs[k].loadTime, route.legs[k].unloadTime)
  {
    legs := None;
    var k := 0;
    while k < |route.legs|
      invariant 0 <= k <= |route.legs|
      invariant legs.None? <==> k == 0
      invariant legs.Some? ==> |legs.value| == k
      invariant legs.Some? ==> forall j :: 0 <= j < k ==> legs.value[j] == ToLeg(route.legs[j])
    {
      legs := Some(legs.GetOr([]) + [ToLeg(route.legs[k])]);
      k := k + 1;
    }
  }

  /** `decodeAssignToRouteRequest`: a body that cannot be read or decoded is
      reported before a missing id; otherwise the route's legs become the
      itinerary. */
  method DecodeAssignToRouteRequest(r: Request<Route>) returns (res: Result<AssignToRouteRequest, Error>)
    ensures r.body.Failure? ==> res == Failure(r.body.error)
    ensures r.body.Success? && Lookup(r.vars, "id") == "" ==> res == Failure(ErrMissingParameters)
    ensures r.body.Success? && Lookup(r.vars, "id") != "" ==>
      && res.Success?
      && res.value.id == r.vars["id"]
      && |Legs(res.value.itinerary)| == |r.body.value.legs|
      && (res.value.itinerary.legs.None? <==> |r.body.value.legs| == 0)
      && forall k :: 0 <= k < |r.body.value.legs| ==> Legs(res.value.itinerary)[k] == ToLeg(r.body.value.legs[k])
  {
    match r.body
    case Failure(e) =>
      res := Failure(e);
    case Success(route) =>
      var legs := RouteLegs(route);
      var id := Lookup(r.vars, "id");
      if id == "" {
        res := Failure(ErrMissingParameters);
      } else {
        res := Success(AssignToRouteRequest(id, Itinerary(legs)));
      }
  }

  datatype ChangeDestinationRequest = ChangeDestinationRequest(id: TrackingId, destination: UNLocode)

  /** `decodeChangeDestinationRequest`: the id from the route and the
      destination from the JSON body or the form and query. A body error
      comes first; then an empty id or destination is missing. */
  function DecodeChangeDestinationRequest(r: Request<DestinationBody>): (res: Result<ChangeDestinationRequest, Error>)
    ensures IsJson(r) && r.body.Failure? ==> res == Failure(r.body.error)
    ensures !(IsJson(r) && r.body.Failure?) ==>
      var destination := if IsJson(r) then r.body.value.destination else GetParam(r, "destination");
      && (res.Failure? <==> Lookup(r.vars, "id") == "" || destination == "")
      && (res.Failure? ==> res.error == ErrMissingParameters)
      && (res.Success? ==> res.value == ChangeDestinationRequest(r.vars["id"], destination))
  {
    var id := Lookup(r.vars, "id");
    if IsJson(r) && r.body.Failure? then Failure(r.body.error)
    else
      var destination := if IsJson(r) then r.body.value.destination else GetParam(r, "destination");
      if id == "" || destination == "" then Failure(ErrMissingParameters)
      else Success(ChangeDestinationRequest(id, destination))
  }
}
