/**
 * What one turn of the dialogue does in each branch, the invariants every
 * turn keeps, and a few conversations played out turn by turn.
 */
module DialogueProperties {
  import opened Text
  import opened Values
  import opened Wrappers
  import opened TripDetails
  import opened FlightPayload
  import opened Dialogue

  // ---------------------------------------------------------------------------
  // Step "trip_details"
  // ---------------------------------------------------------------------------

  /** A patch that leaves gaps: the first gap is asked for and awaited, and the step stays "trip_details". */
  lemma ExtractionAsksFirstMissing(s: SessionState, input: string, ext: External)
    requires WellFormed(s) && input != "" && s.currentStep == TripDetailsStep
    requires ext.extraction.Some? && ext.extraction.value != map[]
    requires MissingDetails(Merged(s.tripDetails, ext.extraction.value)) != []
    ensures var merged := Merged(s.tripDetails, ext.extraction.value);
            var field := MissingDetails(merged)[0];
            var r := NextState(s, input, ext);
            && r.tripDetails == merged
            && r.awaitingInput == Some(field)
            && r.currentStep == TripDetailsStep
            && r.searchCompleted == s.searchCompleted
            && r.conversation == s.conversation + [Message(User, input), Message(Assistant, Question(field))]
  {
  }

  /**
   * A patch that completes the profile: the summary and menu are shown and
   * the step becomes "actions", while `awaiting_input` keeps whatever it held.
   */
  lemma ExtractionOffersActions(s: SessionState, input: string, ext: External)
    requires WellFormed(s) && input != "" && s.currentStep == TripDetailsStep
    requires ext.extraction.Some? && ext.extraction.value != map[]
    requires MissingDetails(Merged(s.tripDetails, ext.extraction.value)) == []
    ensures var merged := Merged(s.tripDetails, ext.extraction.value);
            var r := NextState(s, input, ext);
            && r.tripDetails == merged
            && IsComplete(merged)
            && r.currentStep == ActionsStep
            && r.awaitingInput == s.awaitingInput
            && r.conversation == s.conversation
               + [Message(User, input), Message(Assistant, Summary(merged) + "\n\n" + ActionsMenu)]
  {
    NoneMissingIffComplete(Merged(s.tripDetails, ext.extraction.value));
  }

  /** No patch, or an empty one: the profile is reset to its defaults and the origin is asked for. */
  lemma FailedExtractionResets(s: SessionState, input: string, ext: External)
    requires WellFormed(s) && input != "" && s.currentStep == TripDetailsStep
    requires ext.extraction.None? || ext.extraction.value == map[]
    ensures var r := NextState(s, input, ext);
            && r.tripDetails == Defaults()
            && r.awaitingInput == Some(Origin)
            && r.currentStep == TripDetailsStep
            && r.conversation == s.conversation + [Message(User, input), Message(Assistant, Question(Origin))]
  {
  }

  /**
   * While the step is "trip_details", a message never goes into the profile
   * verbatim: the profile afterwards is the merge of a patch, or the defaults.
   */
  lemma CollectingAlwaysExtracts(s: SessionState, input: string, ext: External)
    requires WellFormed(s) && input != "" && s.currentStep == TripDetailsStep
    ensures var r := NextState(s, input, ext);
            || (ext.extraction.Some? && r.tripDetails == Merged(s.tripDetails, ext.extraction.value))
            || r.tripDetails == Defaults()
    ensures NextState(s, input, ext).currentStep in {TripDetailsStep, ActionsStep}
  {
  }

  // ---------------------------------------------------------------------------
  // Step "actions"
  // ---------------------------------------------------------------------------

  /** A message that names no action is recorded and changes nothing else. */
  lemma UnnamedActionOnlyRecordsMessage(s: SessionState, input: string, ext: External)
    requires WellFormed(s) && input != "" && s.currentStep == ActionsStep
    requires forall a :: !Names(input, a)
    ensures NextState(s, input, ext) == s.(conversation := s.conversation + [Message(User, input)])
  {
  }

  /**
   * "Start over" re-runs `init_session_state`, which fills only absent keys;
   * every key exists, so the profile, the step and the awaited field stay
   * as they were and only the reply is added.
   */
  lemma StartOverResetsNothing(s: SessionState, input: string, ext: External)
    requires WellFormed(s) && input != "" && s.currentStep == ActionsStep
    requires ChooseAction(input) == Some(StartOver)
    ensures NextState(s, input, ext)
            == s.(conversation := s.conversation + [Message(User, input), Message(Assistant, StartOverReply)])
  {
    InitKeepsExistingSession(s.(conversation := s.conversation + [Message(User, input)]));
  }

  /** The step a chosen search moves to. */
  function SearchStep(a: Action): Step
  {
    match a
    case SearchFlights => FlightsStep
    case FindHotels => HotelsStep
    case GetRecommendations => RecommendationsStep
    case StartOver => ActionsStep
  }

  /**
   * A chosen search moves to its own step before it runs, so the step is
   * left there even when the search fails; the profile and the awaited
   * field are not touched.
   */
  lemma SearchLeavesActions(s: SessionState, input: string, ext: External)
    requires WellFormed(s) && input != "" && s.currentStep == ActionsStep
    requires ChooseAction(input).Some? && ChooseAction(input).value != StartOver
    ensures var r := NextState(s, input, ext);
            && r.currentStep == SearchStep(ChooseAction(input).value)
            && r.tripDetails == s.tripDetails
            && r.awaitingInput == s.awaitingInput
  {
  }

  /**
   * A traveller count that `range()` rejects raises while the payload is
   * built: the error handler answers, and the step stays "flights".
   */
  lemma PayloadErrorKeepsFlightsStep(s: SessionState, input: string, ext: External)
    requires WellFormed(s) && input != "" && s.currentStep == ActionsStep
    requires ChooseAction(input) == Some(SearchFlights)
    requires BuildFlightPayload(s.tripDetails).Failure?
    ensures NextState(s, input, ext) == s.(
              currentStep := FlightsStep,
              conversation := s.conversation + [Message(User, input),
                Message(Assistant, ErrorApology), Message(Assistant, ErrorOptions)])
  {
  }

  /**
   * Without a return date the check-out date is computed from the departure
   * date. When that raises (the departure date is not a string, or the
   * three-day computation fails on it) the error handler answers and the
   * step stays "hotels".
   */
  lemma CheckOutErrorKeepsHotelsStep(s: SessionState, input: string, ext: External)
    requires WellFormed(s) && input != "" && s.currentStep == ActionsStep
    requires ChooseAction(input) == Some(FindHotels)
    requires !Truthy(s.tripDetails[ReturnDate])
    requires !s.tripDetails[DepartureDate].Str? || !ext.checkOutComputes
    ensures NextState(s, input, ext) == s.(
              currentStep := HotelsStep,
              conversation := s.conversation + [Message(User, input),
                Message(Assistant, ErrorApology), Message(Assistant, ErrorOptions)])
  {
  }

  /**
   * With a return date, or with a departure date whose check-out date can be
   * computed, the hotel search is reported and the remaining options follow.
   */
  lemma HotelSearchReports(s: SessionState, input: string, ext: External)
    requires WellFormed(s) && input != "" && s.currentStep == ActionsStep
    requires ChooseAction(input) == Some(FindHotels)
    requires Truthy(s.tripDetails[ReturnDate]) || (s.tripDetails[DepartureDate].Str? && ext.checkOutComputes)
    ensures var r := NextState(s, input, ext);
            && r.currentStep == HotelsStep
            && r.tripDetails == s.tripDetails
            && r.awaitingInput == s.awaitingInput
            && r.searchCompleted.hotels == (s.searchCompleted.hotels || ext.hotelSearch == Found)
            && r.conversation == s.conversation + [Message(User, input)]
                                 + SearchReport(ext.hotelSearch, HotelsFound, NoHotels)
                                 + [Message(Assistant, MenuAfterHotels)]
  {
  }

  /**
   * With a return date set, joining the dates raises unless both dates are
   * strings: the error handler answers and the step stays "recommendations".
   */
  lemma DateRangeErrorKeepsRecommendationsStep(s: SessionState, input: string, ext: External)
    requires WellFormed(s) && input != "" && s.currentStep == ActionsStep
    requires ChooseAction(input) == Some(GetRecommendations)
    requires Truthy(s.tripDetails[ReturnDate])
    requires !s.tripDetails[DepartureDate].Str? || !s.tripDetails[ReturnDate].Str?
    ensures NextState(s, input, ext) == s.(
              currentStep := RecommendationsStep,
              conversation := s.conversation + [Message(User, input),
                Message(Assistant, ErrorApology), Message(Assistant, ErrorOptions)])
  {
  }

  /** The menu numbers alone pick their actions. */
  lemma MenuNumbersChoose()
    ensures ChooseAction("1") == Some(SearchFlights)
    ensures ChooseAction("2") == Some(FindHotels)
    ensures ChooseAction("3") == Some(GetRecommendations)
    ensures ChooseAction("4") == Some(StartOver)
  {
    assert OccursAt("1", "1", 0) && OccursAt("2", "2", 0);
    assert OccursAt("3", "3", 0) && OccursAt("4", "4", 0);
  }

  // ---------------------------------------------------------------------------
  // The other steps
  // ---------------------------------------------------------------------------

  /**
   * In a step past "actions" with a field awaited, the message is stored
   * verbatim in that field, with no validation, and the dialogue asks for
   * the next gap or offers the actions again.
   */
  lemma AnswerStoredVerbatim(s: SessionState, input: string, ext: External)
    requires WellFormed(s) && input != ""
    requires s.currentStep != TripDetailsStep && s.currentStep != ActionsStep
    requires s.awaitingInput.Some?
    ensures var r := NextState(s, input, ext);
            var stored := s.tripDetails[s.awaitingInput.value := Str(input)];
            && r.tripDetails == stored
            && r.tripDetails[s.awaitingInput.value] == Str(input)
            && (MissingDetails(stored) != [] ==>
                  && r.awaitingInput == Some(MissingDetails(stored)[0])
                  && r.currentStep == s.currentStep
                  && r.conversation == s.conversation + [Message(User, input),
                       Message(Assistant, Question(MissingDetails(stored)[0]))])
            && (MissingDetails(stored) == [] ==>
                  && r.awaitingInput == None
                  && r.currentStep == ActionsStep
                  && IsComplete(stored)
                  && r.conversation == s.conversation + [Message(User, input),
                       Message(Assistant, Summary(stored) + "\n\n" + ActionsMenu)])
  {
    NoneMissingIffComplete(s.tripDetails[s.awaitingInput.value := Str(input)]);
  }

  /** In a step past "actions" with nothing awaited, a message is recorded and nothing else happens. */
  lemma IdleStepOnlyRecordsMessage(s: SessionState, input: string, ext: External)
    requires WellFormed(s) && input != ""
    requires s.currentStep != TripDetailsStep && s.currentStep != ActionsStep
    requires s.awaitingInput.None?
    ensures NextState(s, input, ext) == s.(conversation := s.conversation + [Message(User, input)])
  {
  }

  // ---------------------------------------------------------------------------
  // Invariants of every turn
  // ---------------------------------------------------------------------------

  /** Step "actions" is only ever entered, or kept, with a complete profile. */
  ghost predicate ActionsOnlyWhenComplete(s: SessionState)
  {
    s.currentStep == ActionsStep ==> IsComplete(s.tripDetails)
  }

  lemma {:induction false} TurnKeepsActionsOnlyWhenComplete(s: SessionState, input: string, ext: External)
    requires WellFormed(s) && ActionsOnlyWhenComplete(s)
    ensures ActionsOnlyWhenComplete(NextState(s, input, ext))
  {
    if input != "" {
      var heard := s.(conversation := s.conversation + [Message(User, input)]);
      if s.currentStep == TripDetailsStep {
        if ext.extraction.Some? && ext.extraction.value != map[] {
          NoneMissingIffComplete(Merged(s.tripDetails, ext.extraction.value));
        }
      } else if s.currentStep == ActionsStep {
        if ChooseAction(input) == Some(StartOver) {
          InitKeepsExistingSession(heard);
        }
      } else if s.awaitingInput.Some? {
        NoneMissingIffComplete(s.tripDetails[s.awaitingInput.value := Str(input)]);
      }
    }
  }

  /** A fresh session satisfies the invariant. */
  lemma FreshSessionSatisfiesInvariant(s: SessionState)
    requires s.keys == {}
    ensures WellFormed(InitState(s)) && ActionsOnlyWhenComplete(InitState(s))
  {
  }

  /**
   * The message a turn records, and the branch it runs: `NextState` on a
   * non-empty message is the branch applied to the state with the message
   * recorded.
   */
  lemma {:induction false} TurnBranches(s: SessionState, input: string, ext: External)
    requires WellFormed(s) && input != ""
    ensures var heard := s.(conversation := s.conversation + [Message(User, input)]);
            var r := NextState(s, input, ext);
            && (s.currentStep == TripDetailsStep ==> r == ExtractionTurn(heard, ext.extraction))
            && (s.currentStep == ActionsStep ==> r == ActionsTurn(heard, input, ext))
            && (s.currentStep != TripDetailsStep && s.currentStep != ActionsStep ==>
                  r == if s.awaitingInput.Some? then AnswerTurn(heard, input) else heard)
  {
  }

  /** A search flag, once raised, stays raised. */
  lemma {:induction false} SearchFlagsOnlyRise(s: SessionState, input: string, ext: External)
    requires WellFormed(s)
    ensures var r := NextState(s, input, ext);
            && (s.searchCompleted.flights ==> r.searchCompleted.flights)
            && (s.searchCompleted.hotels ==> r.searchCompleted.hotels)
            && (s.searchCompleted.recommendations ==> r.searchCompleted.recommendations)
  {
    if input != "" {
      TurnBranches(s, input, ext);
      var heard := s.(conversation := s.conversation + [Message(User, input)]);
      if s.currentStep == ActionsStep && ChooseAction(input) == Some(StartOver) {
        InitKeepsExistingSession(heard);
      }
    }
  }

  /** The flight flag is raised only in a turn that chose flights and whose search found offers. */
  lemma {:induction false} FlightFlagNeedsFoundOffers(s: SessionState, input: string, ext: External)
    requires WellFormed(s) && !s.searchCompleted.flights
    requires NextState(s, input, ext).searchCompleted.flights
    ensures input != "" && s.currentStep == ActionsStep && ChooseAction(input) == Some(SearchFlights)
    ensures ext.flightSearch == Found && BuildFlightPayload(s.tripDetails).Success?
  {
    if input != "" {
      TurnBranches(s, input, ext);
      var heard := s.(conversation := s.conversation + [Message(User, input)]);
      if s.currentStep == ActionsStep && ChooseAction(input) == Some(StartOver) {
        InitKeepsExistingSession(heard);
      }
    }
  }

  /** A flight search that finds offers raises the flight flag. */
  lemma FoundFlightsRaiseFlag(s: SessionState, input: string, ext: External)
    requires WellFormed(s) && input != "" && s.currentStep == ActionsStep
    requires ChooseAction(input) == Some(SearchFlights)
    requires BuildFlightPayload(s.tripDetails).Success? && ext.flightSearch == Found
    ensures NextState(s, input, ext).searchCompleted.flights
    ensures NextState(s, input, ext).currentStep == FlightsStep
  {
  }

  // ---------------------------------------------------------------------------
  // Conversations played out
  // ---------------------------------------------------------------------------

  const Fresh: SessionState := InitState(SessionState({}, [], map[], None, TripDetailsStep, NoSearchesCompleted))

  /** An external world that only answers the extraction. */
  function Extracted(patch: Details): External
  {
    External(Some(patch), NoToken, NoToken, false)
  }

  /**
   * A complete one-way request goes straight to the actions menu, and the
   * trip stays one-way.
   */
  lemma CompleteRequestOffersActions()
    ensures var patch := map[Origin := Str("DEL"), Destination := Str("GOI"),
                             DepartureDate := Str("2025-05-01"), Travelers := Int(2)];
            var r := NextState(Fresh, "fly from DEL to GOI on 2025-05-01 with 2 people", Extracted(patch));
            && r.currentStep == ActionsStep
            && r.tripDetails[TripType] == Str("one-way")
            && r.tripDetails[Travelers] == Int(2)
            && MissingDetails(r.tripDetails) == []
  {
    var patch := map[Origin := Str("DEL"), Destination := Str("GOI"),
                     DepartureDate := Str("2025-05-01"), Travelers := Int(2)];
    NoneMissingIffComplete(Merged(Fresh.tripDetails, patch));
  }

  /** The fresh session: the default profile, nothing awaited, step "trip_details", no search done. */
  lemma FreshIsDefault()
    ensures Fresh == SessionState(AllKeys, [], Defaults(), None, TripDetailsStep, NoSearchesCompleted)
  {
    InitFreshSession(SessionState({}, [], map[], None, TripDetailsStep, NoSearchesCompleted));
  }

  /** Filling in only the destination leaves origin and departure date missing, in that order. */
  lemma DestinationOnlyMissing()
    ensures MissingDetails(Merged(Defaults(), map[Destination := Str("GOI")])) == [Origin, DepartureDate]
  {
    var d := Merged(Defaults(), map[Destination := Str("GOI")]);
    assert [Origin, Destination, DepartureDate][1..] == [Destination, DepartureDate];
    assert [Destination, DepartureDate][1..] == [DepartureDate];
    assert FalsyFields(d, [DepartureDate]) == [DepartureDate];
    assert FalsyFields(d, [Destination, DepartureDate]) == [DepartureDate];
  }

  /** A request naming only the destination leaves origin and departure date missing and asks for the origin. */
  lemma DestinationOnlyAsksOrigin()
    ensures var patch := map[Destination := Str("GOI")];
            var r := NextState(Fresh, "I want to go to Goa", Extracted(patch));
            && MissingDetails(r.tripDetails) == [Origin, DepartureDate]
            && r.awaitingInput == Some(Origin)
            && r.currentStep == TripDetailsStep
            && r.tripDetails == Merged(Defaults(), patch)
            && r.conversation == [Message(User, "I want to go to Goa"), Message(Assistant, OriginQuestion)]
  {
    var patch := map[Destination := Str("GOI")];
    assert Destination in patch;
    FreshIsDefault();
    DestinationOnlyMissing();
    ExtractionAsksFirstMissing(Fresh, "I want to go to Goa", Extracted(patch));
  }

  const DelhiPatch: Details := map[Origin := Str("DEL"), DepartureDate := Str("2025-05-01")]

  /** Second turn: origin and date complete the profile; the origin stays awaited. */
  lemma DelhiCompletes(s1: SessionState)
    requires WellFormed(s1) && s1.currentStep == TripDetailsStep && s1.awaitingInput == Some(Origin)
    requires s1.tripDetails == Merged(Defaults(), map[Destination := Str("GOI")])
    ensures var s2 := NextState(s1, "from Delhi on 1 May", Extracted(DelhiPatch));
            && s2.currentStep == ActionsStep && s2.awaitingInput == Some(Origin)
            && IsComplete(s2.tripDetails) && s2.tripDetails[Travelers] == Int(1)
  {
    var d := Merged(s1.tripDetails, DelhiPatch);
    assert Origin in DelhiPatch;
    assert IsComplete(d);
    NoneMissingIffComplete(d);
    ExtractionOffersActions(s1, "from Delhi on 1 May", Extracted(DelhiPatch));
  }

  /** Third turn: "1" searches flights, offers are found, and the step is left at "flights". */
  lemma FlightSearchFindsOffers(s2: SessionState)
    requires WellFormed(s2) && s2.currentStep == ActionsStep && s2.awaitingInput == Some(Origin)
    requires IsComplete(s2.tripDetails) && s2.tripDetails[Travelers] == Int(1)
    ensures var s3 := NextState(s2, "1", External(None, Found, NoToken, false));
            && s3.currentStep == FlightsStep && s3.searchCompleted.flights
            && s3.awaitingInput == Some(Origin) && s3.tripDetails == s2.tripDetails
  {
    var e3 := External(None, Found, NoToken, false);
    MenuNumbersChoose();
    FoundFlightsRaiseFlag(s2, "1", e3);
    SearchLeavesActions(s2, "1", e3);
  }

  /** Fourth turn: any message is written over the awaited origin, and the actions are offered again. */
  lemma AnswerOverwritesOrigin(s3: SessionState)
    requires WellFormed(s3) && s3.currentStep == FlightsStep && s3.awaitingInput == Some(Origin)
    requires IsComplete(s3.tripDetails)
    ensures var s4 := NextState(s3, "Mumbai", External(None, NoToken, NoToken, false));
            && s4.tripDetails[Origin] == Str("Mumbai")
            && s4.currentStep == ActionsStep && s4.awaitingInput == None
  {
    var stored := s3.tripDetails[Origin := Str("Mumbai")];
    assert IsComplete(stored);
    NoneMissingIffComplete(stored);
    AnswerStoredVerbatim(s3, "Mumbai", External(None, NoToken, NoToken, false));
  }

  /**
   * The field awaited while collecting survives completion: after a flight
   * search, the next message is written verbatim over the origin that was
   * awaited two turns before.
   */
  lemma AwaitedFieldOutlivesCompletion()
    ensures var s1 := NextState(Fresh, "I want to go to Goa", Extracted(map[Destination := Str("GOI")]));
            var s2 := NextState(s1, "from Delhi on 1 May", Extracted(DelhiPatch));
            var s3 := NextState(s2, "1", External(None, Found, NoToken, false));
            var s4 := NextState(s3, "Mumbai", External(None, NoToken, NoToken, false));
            && s2.currentStep == ActionsStep && s2.awaitingInput == Some(Origin)
            && s3.currentStep == FlightsStep && s3.searchCompleted.flights
            && s4.tripDetails[Origin] == Str("Mumbai")
            && s4.currentStep == ActionsStep && s4.awaitingInput == None
  {
    var s1 := NextState(Fresh, "I want to go to Goa", Extracted(map[Destination := Str("GOI")]));
    DestinationOnlyAsksOrigin();
    DelhiCompletes(s1);
    var s2 := NextState(s1, "from Delhi on 1 May", Extracted(DelhiPatch));
    FlightSearchFindsOffers(s2);
    var s3 := NextState(s2, "1", External(None, Found, NoToken, false));
    AnswerOverwritesOrigin(s3);
  }
}
