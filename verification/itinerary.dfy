/** Itineraries: the legs a cargo travels, their end points, and whether a
    handling event is expected along them. */
module Itineraries {
  import opened Wrappers
  import opened Shipping
  import opened HandlingEvents

  /** Transportation between two locations on one voyage. */
  datatype Leg = Leg(
    voyageNumber: VoyageNumber,
    loadLocation: UNLocode,
    unloadLocation: UNLocode,
    loadTime: Time,
    unloadTime: Time)

  /** `legs == None` is Go's nil slice, which the routing status tells apart
      from a non-nil empty slice `Some([])`. */
  datatype Itinerary = Itinerary(legs: Option<seq<Leg>>)

  /** `Itinerary{}`: nil legs. */
  const EmptyItinerary := Itinerary(None)

  /** The legs as Go's `range` and `len` see them: nil reads as empty. */
  function Legs(i: Itinerary): seq<Leg> {
    i.legs.GetOr([])
  }

  function MakeLeg(
    voyageNumber: VoyageNumber,
    loadLocation: UNLocode,
    unloadLocation: UNLocode,
    loadTime: Time,
    unloadTime: Time): (l: Leg)
    ensures l.voyageNumber == voyageNumber
    ensures l.loadLocation == loadLocation && l.unloadLocation == unloadLocation
    ensures l.loadTime == loadTime && l.unloadTime == unloadTime
  {
    Leg(voyageNumber, loadLocation, unloadLocation, loadTime, unloadTime)
  }

  predicate IsEmpty(i: Itinerary) {
    |Legs(i)| == 0
  }

  function InitialDepartureLocation(i: Itinerary): (loc: UNLocode)
    ensures IsEmpty(i) ==> loc == ""
    ensures !IsEmpty(i) ==> loc == i.legs.value[0].loadLocation
  {
    if IsEmpty(i) then "" else Legs(i)[0].loadLocation
  }

  function FinalArrivalLocation(i: Itinerary): (loc: UNLocode)
    ensures IsEmpty(i) ==> loc == ""
    ensures !IsEmpty(i) ==> loc == i.legs.value[|i.legs.value| - 1].unloadLocation
  {
    if IsEmpty(i) then "" else Legs(i)[|Legs(i)| - 1].unloadLocation
  }

  /** Indexes the last leg, so Go panics on an itinerary without legs. */
  function FinalArrivalTime(i: Itinerary): (t: Time)
    requires !IsEmpty(i)
    ensures t == i.legs.value[|i.legs.value| - 1].unloadTime
  {
    Legs(i)[|Legs(i)| - 1].unloadTime
  }

  /** The index of the first leg at or after `start` that satisfies `p`: the
      `for ... range` loops that return on the first matching leg. */
  function FirstLeg(legs: seq<Leg>, p: Leg -> bool, start: nat): (k: Option<nat>)
    requires start <= |legs|
    ensures k.Some? ==> start <= k.value < |legs| && p(legs[k.value])
    ensures k.Some? ==> forall j :: start <= j < k.value ==> !p(legs[j])
    ensures k.None? <==> forall j :: start <= j < |legs| ==> !p(legs[j])
    decreases |legs| - start
  {
    if start == |legs| then None
    else if p(legs[start]) then Some(start)
    else FirstLeg(legs, p, start + 1)
  }

  /** Some leg satisfies `p`. */
  predicate AnyLeg(legs: seq<Leg>, p: Leg -> bool) {
    FirstLeg(legs, p, 0).Some?
  }

  function LoadsAt(loc: UNLocode, v: VoyageNumber): Leg -> bool {
    (l: Leg) => l.loadLocation == loc && l.voyageNumber == v
  }

  function UnloadsAt(loc: UNLocode, v: VoyageNumber): Leg -> bool {
    (l: Leg) => l.unloadLocation == loc && l.voyageNumber == v
  }

  /** Whether `event` fits this itinerary. An itinerary without legs expects
      everything; receive and claim must happen at the two ends; load and
      unload must match some leg's location and voyage; any other type is
      expected. */
  predicate IsExpected(i: Itinerary, event: HandlingEvent) {
    var a := event.activity;
    if IsEmpty(i) then true
    else if a.eventType == Receive then InitialDepartureLocation(i) == a.location
    else if a.eventType == Load then AnyLeg(Legs(i), LoadsAt(a.location, a.voyageNumber))
    else if a.eventType == Unload then AnyLeg(Legs(i), UnloadsAt(a.location, a.voyageNumber))
    else if a.eventType == Claim then FinalArrivalLocation(i) == a.location
    else true
  }

  /** An independent statement of when an event is expected, in terms of leg
      indexes. */
  ghost predicate ExpectedBySpec(i: Itinerary, event: HandlingEvent) {
    var legs := Legs(i);
    var a := event.activity;
    || |legs| == 0
    || (a.eventType == Receive && a.location == legs[0].loadLocation)
    || (a.eventType == Load &&
          exists k :: 0 <= k < |legs| && legs[k].loadLocation == a.location && legs[k].voyageNumber == a.voyageNumber)
    || (a.eventType == Unload &&
          exists k :: 0 <= k < |legs| && legs[k].unloadLocation == a.location && legs[k].voyageNumber == a.voyageNumber)
    || (a.eventType == Claim && a.location == legs[|legs| - 1].unloadLocation)
    || a.eventType !in {Receive, Load, Unload, Claim}
  }

  lemma IsExpectedMatchesSpec(i: Itinerary, event: HandlingEvent)
    ensures IsExpected(i, event) <==> ExpectedBySpec(i, event)
  {
    var legs := Legs(i);
    var a := event.activity;
    if |legs| > 0 && a.eventType == Load {
      var p := LoadsAt(a.location, a.voyageNumber);
      if AnyLeg(legs, p) {
        var k := FirstLeg(legs, p, 0).value;
        assert p(legs[k]);
      } else {
        forall k | 0 <= k < |legs|
          ensures !(legs[k].loadLocation == a.location && legs[k].voyageNumber == a.voyageNumber)
        {
          assert !p(legs[k]);
        }
      }
    } else if |legs| > 0 && a.eventType == Unload {
      var p := UnloadsAt(a.location, a.voyageNumber);
      if AnyLeg(legs, p) {
        var k := FirstLeg(legs, p, 0).value;
        assert p(legs[k]);
      } else {
        forall k | 0 <= k < |legs|
          ensures !(legs[k].unloadLocation == a.location && legs[k].voyageNumber == a.voyageNumber)
        {
          assert !p(legs[k]);
        }
      }
    }
  }

  /** The cases the test table at itinerary_test.go checks, one per row. */
  lemma ExpectedOnSampleItinerary()
    ensures var i := Itinerary(Some([
                       Leg("001A", "SESTO", "AUMEL", ZeroTime, ZeroTime),
                       Leg("001A", "AUMEL", "CNHKG", ZeroTime, ZeroTime)]));
            && IsExpected(i, HandlingEvent("", NoActivity))
            && IsExpected(i, HandlingEvent("", HandlingActivity(Receive, "SESTO", "")))
            && !IsExpected(i, HandlingEvent("", HandlingActivity(Receive, "AUMEL", "")))
            && IsExpected(i, HandlingEvent("", HandlingActivity(Load, "AUMEL", "001A")))
            && !IsExpected(i, HandlingEvent("", HandlingActivity(Load, "CNHKG", "001A")))
            && IsExpected(i, HandlingEvent("", HandlingActivity(Unload, "CNHKG", "001A")))
            && !IsExpected(i, HandlingEvent("", HandlingActivity(Unload, "SESTO", "001A")))
            && IsExpected(i, HandlingEvent("", HandlingActivity(Claim, "CNHKG", "")))
            && !IsExpected(i, HandlingEvent("", HandlingActivity(Claim, "SESTO", "")))
    ensures IsExpected(Itinerary(None), HandlingEvent("", NoActivity))
  {
  }
}
