/**
 * The trip profile held in `st.session_state.trip_details`: its six keys and
 * their defaults, the merge of an extracted patch into it, and the
 * completeness check that decides which detail to ask for next.
 */
module TripDetails {
  import opened Values

  const Origin: string := "origin"
  const Destination: string := "destination"
  const DepartureDate: string := "departure_date"
  const ReturnDate: string := "return_date"
  const Travelers: string := "travelers"
  const TripType: string := "trip_type"

  /** The keys `init_session_state` gives the profile; no operation adds or removes one. */
  const Schema: set<string> := {Origin, Destination, DepartureDate, ReturnDate, Travelers, TripType}

  /** A profile or a patch: a Python dict from key to decoded JSON value. */
  type Details = map<string, Value>

  /** The profile `init_session_state` creates and the extraction fallback restores. */
  function Defaults(): (d: Details)
    ensures d.Keys == Schema
    ensures !Truthy(d[Origin]) && !Truthy(d[Destination])
    ensures !Truthy(d[DepartureDate]) && !Truthy(d[ReturnDate])
    ensures d[Travelers] == Int(1) && d[TripType] == Str("one-way")
  {
    map[Origin := Str(""), Destination := Str(""), DepartureDate := Str(""),
        ReturnDate := Str(""), Travelers := Int(1), TripType := Str("one-way")]
  }

  /** `d.get(key)`: `None` for an absent key. */
  function Get(d: Details, key: string): Value
  {
    if key in d then d[key] else Null
  }

  /** `d.get('trip_type', 'one-way') == 'round-trip'`: an absent trip type counts as one-way. */
  predicate IsRoundTrip(d: Details)
  {
    TripType in d && d[TripType] == Str("round-trip")
  }

  // ---------------------------------------------------------------------------
  // Merging an extracted patch (the loop over the patch's keys)
  // ---------------------------------------------------------------------------

  /**
   * The profile after the merge loop: every key of the profile that the patch
   * also has takes the patch's value, whatever that value is; every other key
   * keeps its value; keys only the patch has are dropped.
   */
  function Merged(d: Details, patch: Details): (r: Details)
    ensures r.Keys == d.Keys
  {
    map k | k in d :: if k in patch then patch[k] else d[k]
  }

  /**
   * The loop `for key in new_details: if key in trip_details: trip_details[key] = new_details[key]`.
   * Keys of a dict are distinct, so the order in which the loop visits them
   * does not matter; here they are taken in an arbitrary order.
   */
  method ApplyPatch(details: Details, patch: Details) returns (merged: Details)
    ensures merged == Merged(details, patch)
  {
    merged := details;
    var pending := patch.Keys;
    while pending != {}
      invariant pending <= patch.Keys
      invariant merged == Merged(details, patch - pending)
      decreases pending
    {
      var key :| key in pending;
      var done := patch - (pending - {key});
      if key in merged {
        merged := merged[key := patch[key]];
      }
      assert merged == Merged(details, done);
      pending := pending - {key};
    }
    assert patch - {} == patch;
  }

  /** A value the patch gives replaces the old one even when it is empty or null. */
  lemma MergeOverwritesWithEmpty(d: Details, key: string, v: Value)
    requires key in d && !Truthy(v)
    ensures Merged(d, map[key := v])[key] == v
    ensures !Truthy(Get(Merged(d, map[key := v]), key))
  {
  }

  /** Keys outside the profile's own keys have no effect. */
  lemma MergeIgnoresUnknownKeys(d: Details, patch: Details)
    ensures Merged(d, patch) == Merged(d, map k | k in patch && k in d :: patch[k])
  {
  }

  /** Merging the same patch twice gives what merging it once gave. */
  lemma MergeIdempotent(d: Details, patch: Details)
    ensures Merged(Merged(d, patch), patch) == Merged(d, patch)
  {
  }

  /** Two patches in a row act as one patch in which the later one's values win. */
  lemma MergeSequential(d: Details, p: Details, q: Details)
    ensures Merged(Merged(d, p), q) == Merged(d, p + q)
  {
  }

  /** A patch that names `return_date` does not make the trip round-trip. */
  lemma ReturnDateDoesNotForceRoundTrip(d: Details, returnDate: Value)
    requires !IsRoundTrip(d)
    ensures !IsRoundTrip(Merged(d, map[ReturnDate := returnDate]))
  {
  }

  // ---------------------------------------------------------------------------
  // check_missing_details
  // ---------------------------------------------------------------------------

  /** The fixed priority in which missing details are reported and asked for. */
  function Rank(field: string): nat
  {
    if field == Origin then 0
    else if field == Destination then 1
    else if field == DepartureDate then 2
    else if field == ReturnDate then 3
    else 4
  }

  ghost predicate Ascending(fields: seq<string>)
  {
    forall i, j :: 0 <= i < j < |fields| ==> Rank(fields[i]) < Rank(fields[j])
  }

  /** An ascending list stays ascending after its head, and its head outranks the rest. */
  lemma AscendingTail(fields: seq<string>)
    requires fields != [] && Ascending(fields)
    ensures Ascending(fields[1..])
    ensures forall x :: x in fields[1..] ==> Rank(fields[0]) < Rank(x)
  {
    forall x | x in fields[1..] ensures Rank(fields[0]) < Rank(x) {
      var k :| 0 <= k < |fields[1..]| && fields[1..][k] == x;
      assert fields[k + 1] == x;
    }
  }

  /** A field outranked by none of an ascending list can go in front of it. */
  lemma AscendingCons(field: string, rest: seq<string>)
    requires Ascending(rest)
    requires forall x :: x in rest ==> Rank(field) < Rank(x)
    ensures Ascending([field] + rest)
  {
    var s := [field] + rest;
    forall i, j | 0 <= i < j < |s| ensures Rank(s[i]) < Rank(s[j]) {
      assert s[j] == rest[j - 1];
      if i > 0 {
        assert s[i] == rest[i - 1];
      } else {
        assert rest[j - 1] in rest;
      }
    }
  }

  /** `[field for field in fields if not d.get(field)]`. */
  function FalsyFields(d: Details, fields: seq<string>): (r: seq<string>)
    ensures forall f :: f in r <==> f in fields && !Truthy(Get(d, f))
    ensures Ascending(fields) ==> Ascending(r)
    decreases |fields|
  {
    if fields == [] then []
    else
      var rest := FalsyFields(d, fields[1..]);
      if Truthy(Get(d, fields[0])) then rest
      else
        assert Ascending(fields) ==> Ascending([fields[0]] + rest) by {
          if Ascending(fields) {
            AscendingTail(fields);
            AscendingCons(fields[0], rest);
          }
        }
        [fields[0]] + rest
  }

  /**
   * `check_missing_details`: the empty required details, in priority order.
   * Origin, destination and departure date are always required; the return
   * date only on a round trip; the traveller count and trip type never.
   */
  function MissingDetails(d: Details): (r: seq<string>)
    ensures forall f :: f in r <==>
      (f == Origin || f == Destination || f == DepartureDate || (f == ReturnDate && IsRoundTrip(d)))
      && !Truthy(Get(d, f))
    ensures Ascending(r)
    ensures Travelers !in r && TripType !in r
  {
    var required := [Origin, Destination, DepartureDate];
    FalsyFields(d, if IsRoundTrip(d) then required + [ReturnDate] else required)
  }

  /** Completeness as a predicate of its own: the required details all filled in. */
  predicate IsComplete(d: Details)
  {
    && Truthy(Get(d, Origin))
    && Truthy(Get(d, Destination))
    && Truthy(Get(d, DepartureDate))
    && (IsRoundTrip(d) ==> Truthy(Get(d, ReturnDate)))
  }

  /** Nothing is reported missing exactly when the profile is complete. */
  lemma NoneMissingIffComplete(d: Details)
    ensures MissingDetails(d) == [] <==> IsComplete(d)
  {
    var r := MissingDetails(d);
    if r != [] {
      assert r[0] in r;
    }
  }

  /** The detail asked for next is the first gap: every required detail before it is filled in. */
  lemma {:induction false} FirstMissingIsFirstGap(d: Details, f: string)
    requires MissingDetails(d) != []
    requires f == Origin || f == Destination || f == DepartureDate
    requires Rank(f) < Rank(MissingDetails(d)[0])
    ensures Truthy(Get(d, f))
  {
  }

  /** The fresh profile lacks exactly origin, destination and departure date, in that order. */
  lemma DefaultsMissing()
    ensures MissingDetails(Defaults()) == [Origin, Destination, DepartureDate]
  {
    var d := Defaults();
    var fields := [Origin, Destination, DepartureDate];
    assert fields[1..] == [Destination, DepartureDate];
    assert fields[1..][1..] == [DepartureDate];
    assert fields[1..][1..][1..] == [];
    assert FalsyFields(d, [DepartureDate]) == [DepartureDate];
    assert FalsyFields(d, [Destination, DepartureDate]) == [Destination, DepartureDate];
    assert FalsyFields(d, fields) == fields;
  }
}
