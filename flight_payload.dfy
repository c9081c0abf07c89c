/**
 * `build_flight_payload`: the flight-offer search request built from the trip
 * profile, with one outbound leg, an optional return leg and one adult entry
 * per traveller.
 */
module FlightPayload {
  import opened Text
  import opened Values
  import opened Wrappers
  import opened TripDetails

  /** One entry of `originDestinations`; the departure time is always 10:00. */
  datatype Leg = Leg(id: string, originLocationCode: Value, destinationLocationCode: Value,
                     date: Value, time: string)

  datatype Traveler = Traveler(id: string, travelerType: string)

  datatype CabinRestriction = CabinRestriction(cabin: string, coverage: string,
                                               originDestinationIds: seq<string>)

  /** The request body: currency, legs, travellers, sources and search criteria. */
  datatype FlightOfferSearch = FlightOfferSearch(
    currencyCode: string,
    originDestinations: seq<Leg>,
    travelers: seq<Traveler>,
    sources: seq<string>,
    maxFlightOffers: nat,
    cabinRestrictions: seq<CabinRestriction>)

  /** The `TypeError` that `range()` raises on a traveller count that is not an integer. */
  datatype PayloadError = TravelerCountNotInteger(count: Value)

  /** `details.get("travelers", 1)`. */
  function TravelerCount(d: Details): Value
  {
    if Travelers in d then d[Travelers] else Int(1)
  }

  /** `len(range(v))`, or `None` where `range(v)` raises; a `bool` is an `int` in Python. */
  function RangeLength(v: Value): Option<nat>
  {
    match v
    case Int(i) => Some(if i > 0 then i else 0)
    case Bool(b) => Some(if b then 1 else 0)
    case _ => None
  }

  /** `[{"id": str(i+1), "travelerType": "ADULT"} for i in range(n)]`. */
  function TravelerEntries(n: nat): (r: seq<Traveler>)
    ensures |r| == n
    ensures forall i :: 0 <= i < n ==> r[i] == Traveler(NatToString(i + 1), "ADULT")
  {
    if n == 0 then [] else TravelerEntries(n - 1) + [Traveler(NatToString(n), "ADULT")]
  }

  /** The second leg exists only on a round trip that has a return date. */
  predicate HasReturnLeg(d: Details)
  {
    IsRoundTrip(d) && Truthy(Get(d, ReturnDate))
  }

  /**
   * `build_flight_payload`. Leg "1" flies origin to destination on the
   * departure date; leg "2" flies back on the return date. The cabin
   * restriction names legs "1" and "2" on any round trip, even one whose
   * return leg was left out. A traveller count that is not an integer fails.
   */
  function BuildFlightPayload(d: Details): (r: Result<FlightOfferSearch, PayloadError>)
    ensures r.Failure? <==> TravelerCount(d).Str? || TravelerCount(d).Null?
    ensures r.Failure? ==> r.error == TravelerCountNotInteger(TravelerCount(d))
    ensures r.Success? ==>
      var p := r.value;
      && |p.originDestinations| == (if HasReturnLeg(d) then 2 else 1)
      && p.originDestinations[0]
         == Leg("1", Get(d, Origin), Get(d, Destination), Get(d, DepartureDate), "10:00:00")
      && (HasReturnLeg(d) ==>
            && p.originDestinations[1].id == "2"
            && p.originDestinations[1].originLocationCode == p.originDestinations[0].destinationLocationCode
            && p.originDestinations[1].destinationLocationCode == p.originDestinations[0].originLocationCode
            && p.originDestinations[1].date == Get(d, ReturnDate)
            && p.originDestinations[1].time == "10:00:00")
      && (TravelerCount(d).Int? ==> |p.travelers| == if TravelerCount(d).i > 0 then TravelerCount(d).i else 0)
      && (TravelerCount(d).Bool? ==> |p.travelers| == if TravelerCount(d).b then 1 else 0)
      && p.travelers == TravelerEntries(|p.travelers|)
      && |p.cabinRestrictions| == 1
      && p.cabinRestrictions[0].cabin == "ECONOMY" && p.cabinRestrictions[0].coverage == "MOST_SEGMENTS"
      && p.cabinRestrictions[0].originDestinationIds == (if IsRoundTrip(d) then ["1", "2"] else ["1"])
      && p.currencyCode == "INR" && p.sources == ["GDS"] && p.maxFlightOffers == 5
  {
    var outbound := Leg("1", Get(d, Origin), Get(d, Destination), Get(d, DepartureDate), "10:00:00");
    var legs := if HasReturnLeg(d)
      then [outbound, Leg("2", Get(d, Destination), Get(d, Origin), Get(d, ReturnDate), "10:00:00")]
      else [outbound];
    match RangeLength(TravelerCount(d))
    case None => Failure(TravelerCountNotInteger(TravelerCount(d)))
    case Some(n) =>
      Success(FlightOfferSearch(
        "INR",
        legs,
        TravelerEntries(n),
        ["GDS"],
        5,
        [CabinRestriction("ECONOMY", "MOST_SEGMENTS", if IsRoundTrip(d) then ["1", "2"] else ["1"])]))
  }

  /** Traveller ids are "1", "2", ... in order: reading the i-th id back gives i + 1. */
  lemma TravelerIdsCountFromOne(d: Details, i: nat)
    requires BuildFlightPayload(d).Success?
    requires i < |BuildFlightPayload(d).value.travelers|
    ensures var id := BuildFlightPayload(d).value.travelers[i].id;
      (forall k :: 0 <= k < |id| ==> IsDigit(id[k])) && DigitsValue(id) == i + 1
  {
    NatToStringRoundTrip(i + 1);
  }

  /** No two travellers share an id. */
  lemma TravelerIdsDistinct(d: Details, i: nat, j: nat)
    requires BuildFlightPayload(d).Success?
    requires i < j < |BuildFlightPayload(d).value.travelers|
    ensures BuildFlightPayload(d).value.travelers[i].id != BuildFlightPayload(d).value.travelers[j].id
  {
    NatToStringInjective(i + 1, j + 1);
  }

  /** Every leg built is named in the cabin restriction. */
  lemma LegsNamedInCabinRestriction(d: Details, k: nat)
    requires BuildFlightPayload(d).Success?
    requires k < |BuildFlightPayload(d).value.originDestinations|
    ensures BuildFlightPayload(d).value.originDestinations[k].id
            in BuildFlightPayload(d).value.cabinRestrictions[0].originDestinationIds
  {
  }

  /**
   * A round trip without a return date gets one leg, yet its cabin
   * restriction still names leg "2".
   */
  lemma RoundTripWithoutReturnDateNamesAbsentLeg(d: Details)
    requires IsRoundTrip(d) && !Truthy(Get(d, ReturnDate))
    requires BuildFlightPayload(d).Success?
    ensures var p := BuildFlightPayload(d).value;
      && "2" in p.cabinRestrictions[0].originDestinationIds
      && forall leg :: leg in p.originDestinations ==> leg.id != "2"
  {
  }
}
