/** The pure helpers of the HTTP front end: query-parameter validation, the
    event-type lookup, the listening port, and the parameter check that guards
    the book-cargo handler. */
module MainHelpers {
  import opened Wrappers
  import opened Shipping
  import opened HandlingEvents
  import opened GoLib
  import CargoRepository
  import BookingService

  const DefaultPort := "8080"

  /** `port()`: the PORT environment value, or the default when it is empty. */
  function Port(env: string): (p: string)
    ensures env == "" ==> p == DefaultPort
    ensures env != "" ==> p == env
    ensures p != ""
  {
    if env == "" then DefaultPort else env
  }

  /** Parsed query values: every value given for each key, in order. */
  type Values = map<string, seq<string>>

  /** `url.Values.Get`: the first value for the key, or `""`. */
  function Get(q: Values, key: string): string {
    if key in q && |q[key]| > 0 then q[key][0] else ""
  }

  /** The requested names that have no non-empty value, in request order. */
  function MissingOf(q: Values, params: seq<string>): seq<string>
    decreases |params|
  {
    if |params| == 0 then []
    else (if Get(q, params[0]) == "" then [params[0]] else []) + MissingOf(q, params[1..])
  }

  lemma {:induction false} MissingOfAppend(q: Values, params: seq<string>, p: string)
    ensures MissingOf(q, params + [p]) == MissingOf(q, params) + (if Get(q, p) == "" then [p] else [])
    decreases |params|
  {
    if |params| > 0 {
      assert (params + [p])[1..] == params[1..] + [p];
      MissingOfAppend(q, params[1..], p);
    } else {
      assert [p][1..] == [];
    }
  }

  lemma {:induction false} MissingOfMembers(q: Values, params: seq<string>, p: string)
    ensures p in MissingOf(q, params) <==> p in params && Get(q, p) == ""
    decreases |params|
  {
    if |params| > 0 {
      MissingOfMembers(q, params[1..], p);
      assert params == [params[0]] + params[1..];
    }
  }

  /** `validateQueryParams`: each requested name with a non-empty value is
      found with that value; every other one is missing, and `missing` lists
      them in request order (an empty, non-nil list when none is). */
  method ValidateQueryParams(q: Values, params: seq<string>) returns (found: map<string, string>, missing: seq<string>)
    ensures found.Keys == set p | p in params && Get(q, p) != ""
    ensures forall p :: p in found ==> found[p] == Get(q, p) && found[p] != ""
    ensures missing == MissingOf(q, params)
    ensures forall p :: p in params ==> (p in found <==> p !in missing)
  {
    found := map[];
    missing := [];
    var k := 0;
    while k < |params|
      invariant 0 <= k <= |params|
      invariant found.Keys == set p | p in params[..k] && Get(q, p) != ""
      invariant forall p :: p in found ==> found[p] == Get(q, p)
      invariant missing == MissingOf(q, params[..k])
    {
      var s := Get(q, params[k]);
      if |s| > 0 {
        found := found[params[k] := s];
      } else {
        missing := missing + [params[k]];
      }
      assert params[..k + 1] == params[..k] + [params[k]];
      MissingOfAppend(q, params[..k], params[k]);
      k := k + 1;
    }
    assert params[..k] == params;
    forall p | p in params
      ensures p in found <==> p !in missing
    {
      MissingOfMembers(q, params, p);
    }
  }

  /** The five event types `stringToEventType` knows, in the order its map
      literal lists them. */
  const NamedTypes: seq<HandlingEventType> := [Receive, Load, Unload, Customs, Claim]

  /** `stringToEventType`, given `HandlingEventType.String`: the type whose
      name is `s`, and `NotHandled` (the zero value) for any other string.
      Were two names equal, the later map entry would win, so the lookup
      scans from the last entry back. */
  function StringToEventType(s: string, name: HandlingEventType -> string): (t: HandlingEventType)
    ensures t != NotHandled ==> t in NamedTypes && name(t) == s
    ensures t == NotHandled <==> forall u :: u in NamedTypes ==> name(u) != s
  {
    if s == name(Claim) then Claim
    else if s == name(Customs) then Customs
    else if s == name(Unload) then Unload
    else if s == name(Load) then Load
    else if s == name(Receive) then Receive
    else NotHandled
  }

  /** The names are pairwise different on the five named types. */
  predicate Injective(name: HandlingEventType -> string) {
    forall i, j :: 0 <= i < j < |NamedTypes| ==> name(NamedTypes[i]) != name(NamedTypes[j])
  }

  /** With distinct names, every named type reads back from its own name. */
  lemma StringToEventTypeInvertsName(name: HandlingEventType -> string, t: HandlingEventType)
    requires Injective(name) && t in NamedTypes
    ensures StringToEventType(name(t), name) == t
  {
    assert NamedTypes[0] == Receive && NamedTypes[1] == Load && NamedTypes[2] == Unload;
    assert NamedTypes[3] == Customs && NamedTypes[4] == Claim;
  }

  /** The query parameters the book-cargo handler requires. */
  const BookParams := ["origin", "destination", "arrivalDeadline"]

  /** The parameter check and booking call of `bookCargoHandler`, as an HTTP
      status code: 405 for a method other than POST, 400 without calling the
      booking service when a parameter is missing, 400 when booking fails,
      200 otherwise. `freshId` is the id the generator supplies. */
  method BookCargoHandler(httpMethod: string, q: Values, cargos: CargoRepository.Repo, freshId: TrackingId)
    returns (status: int, cargos': CargoRepository.Repo)
    ensures httpMethod != "POST" ==> status == 405 && cargos' == cargos
    ensures httpMethod == "POST" && (exists p :: p in BookParams && Get(q, p) == "") ==>
      status == 400 && cargos' == cargos
    ensures status == 200 ==>
      cargos' == BookingService.BookNewCargo(cargos, freshId, Get(q, "origin"), Get(q, "destination"),
                                             Unix(Quot(ParseInt64(Get(q, "arrivalDeadline")), 1000))).0
    ensures httpMethod == "POST" && (forall p :: p in BookParams ==> Get(q, p) != "") ==>
      var (repo, res) := BookingService.BookNewCargo(cargos, freshId, Get(q, "origin"), Get(q, "destination"),
                                                     Unix(Quot(ParseInt64(Get(q, "arrivalDeadline")), 1000)));
      && (status == 200 <==> res.Success?)
      && (status == 200 ==> cargos' == repo)
      && (status == 400 ==> cargos' == cargos)
    ensures status in {200, 400, 405}
  {
    if httpMethod != "POST" {
      return 405, cargos;
    }
    var found, missing := ValidateQueryParams(q, BookParams);
    if |missing| > 0 {
      return 400, cargos;
    }
    assert forall p :: p in BookParams ==> p in found;
    var millis := ParseInt64(found["arrivalDeadline"]);
    var (repo, res) := BookingService.BookNewCargo(cargos, freshId, found["origin"], found["destination"], Unix(Quot(millis, 1000)));
    if res.Failure? {
      return 400, cargos;
    }
    return 200, repo;
  }

  /** The handler does not reject a deadline that is not a number: it reads
      as 0 milliseconds, which is the Unix epoch and not Go's zero time, so
      the cargo is booked with a deadline of 1 January 1970. */
  lemma NonNumericDeadlineBooksAtEpoch(q: Values, cargos: CargoRepository.Repo, freshId: TrackingId)
    requires Get(q, "origin") != "" && Get(q, "destination") != ""
    requires Get(q, "arrivalDeadline") != "" && !IsDecimal(Get(q, "arrivalDeadline"))
    ensures var (repo, res) := BookingService.BookNewCargo(cargos, freshId, Get(q, "origin"), Get(q, "destination"),
                                                          Unix(Quot(ParseInt64(Get(q, "arrivalDeadline")), 1000)));
      && res == Success(freshId)
      && CargoRepository.Find(repo, freshId).value.routeSpecification.arrivalDeadline == 0
  {
  }
}
