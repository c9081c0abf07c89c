/**
 * `st.session_state` as an object whose fields the script updates in place,
 * and the script's own statements as methods on it: `init_session_state`,
 * and the handler that runs once per chat message. Each method is proved to
 * leave exactly the state the corresponding function of `Dialogue` describes.
 */
module App {
  import opened Values
  import opened Wrappers
  import opened TripDetails
  import opened FlightPayload
  import opened Dialogue

  /** Every session key is one of the five `init_session_state` creates. */
  lemma EveryKeyIsKnown(ks: set<SessionKey>)
    ensures ks <= AllKeys
  {
    forall k | k in ks ensures k in AllKeys {
      match k
      case ConversationKey =>
      case TripDetailsKey =>
      case AwaitingInputKey =>
      case CurrentStepKey =>
      case SearchCompletedKey =>
    }
  }

  class Session {
    var keys: set<SessionKey>
    var conversation: seq<Message>
    var tripDetails: Details
    var awaitingInput: Option<string>
    var currentStep: Step
    var searchCompleted: SearchCompleted

    /** The snapshot of the session the dialogue functions speak about. */
    function State(): SessionState
      reads this
    {
      SessionState(keys, conversation, tripDetails, awaitingInput, currentStep, searchCompleted)
    }

    ghost predicate Valid()
      reads this
    {
      Consistent(State())
    }

    /** A browser session before the script has run: no key exists yet. */
    constructor ()
      ensures Valid() && keys == {}
    {
      keys := {};
      conversation := [];
      tripDetails := map[];
      awaitingInput := None;
      currentStep := TripDetailsStep;
      searchCompleted := NoSearchesCompleted;
    }

    /** `init_session_state`: every absent key gets its default, in the order the source tests them. */
    method InitSessionState()
      requires Valid()
      modifies this
      ensures State() == InitState(old(State()))
    {
      var present := keys;
      ghost var initialised := InitState(State());
      if ConversationKey !in present {
        conversation := [];
        keys := keys + {ConversationKey};
      }
      assert conversation == initialised.conversation;
      if TripDetailsKey !in present {
        tripDetails := Defaults();
        keys := keys + {TripDetailsKey};
      }
      assert tripDetails == initialised.tripDetails;
      if AwaitingInputKey !in present {
        awaitingInput := None;
        keys := keys + {AwaitingInputKey};
      }
      assert awaitingInput == initialised.awaitingInput;
      if CurrentStepKey !in present {
        currentStep := TripDetailsStep;
        keys := keys + {CurrentStepKey};
      }
      assert currentStep == initialised.currentStep;
      if SearchCompletedKey !in present {
        searchCompleted := NoSearchesCompleted;
        keys := keys + {SearchCompletedKey};
      }
      assert searchCompleted == initialised.searchCompleted;
      EveryKeyIsKnown(keys);
      assert keys == AllKeys by {
        assert ConversationKey in keys && TripDetailsKey in keys && AwaitingInputKey in keys;
        assert CurrentStepKey in keys && SearchCompletedKey in keys;
      }
    }

    /** Appends an assistant message to `conversation`. */
    method Reply(text: string)
      modifies this
      ensures State() == Say(old(State()), text)
    {
      conversation := conversation + [Message(Assistant, text)];
    }

    /** Asks for the first missing detail, or summarises and moves to "actions". */
    method AskOrOfferActions()
      requires WellFormed(State())
      modifies this
      ensures State() == AskOrOffer(old(State()))
    {
      var missing := MissingDetails(tripDetails);
      if missing != [] {
        var nextField := missing[0];
        awaitingInput := Some(nextField);
        Reply(Question(nextField));
      } else {
        Reply(Summary(tripDetails) + "\n\n" + ActionsMenu);
        currentStep := ActionsStep;
      }
    }

    /** The `except` block: an apology and the recovery menu. */
    method Recover()
      modifies this
      ensures State() == RecoverFromError(old(State()))
    {
      Reply(ErrorApology);
      Reply(ErrorOptions);
    }

    /** Step "trip_details": merge the extracted patch key by key, or fall back to the defaults. */
    method CollectDetails(extraction: Option<Details>)
      requires WellFormed(State())
      modifies this
      ensures State() == ExtractionTurn(old(State()), extraction)
    {
      if extraction.Some? && extraction.value != map[] {
        tripDetails := ApplyPatch(tripDetails, extraction.value);
        AskOrOfferActions();
      } else {
        tripDetails := Defaults();
        awaitingInput := Some(Origin);
        Reply(OriginQuestion);
      }
    }

    /** Option 1: build the payload (which may raise), then report the search and offer the rest. */
    method RunFlightSearch(outcome: SearchOutcome)
      requires WellFormed(State())
      modifies this
      ensures State() == FlightsTurn(old(State()), outcome)
    {
      var payload := BuildFlightPayload(tripDetails);
      if payload.Failure? {
        Recover();
        return;
      }
      match outcome {
        case NoToken =>
        case NoResults =>
          Reply(NoFlights);
        case Found =>
          Reply(FlightsFound);
          searchCompleted := searchCompleted.(flights := true);
      }
      Reply(MenuAfterFlights);
    }

    /** Option 2: the check-out date (which may raise), then report the search and offer the rest. */
    method RunHotelSearch(ext: External)
      requires WellFormed(State())
      modifies this
      ensures State() == HotelsTurn(old(State()), ext)
    {
      if CheckOutFails(tripDetails, ext.checkOutComputes) {
        Recover();
        return;
      }
      match ext.hotelSearch {
        case NoToken =>
        case NoResults =>
          Reply(NoHotels);
        case Found =>
          Reply(HotelsFound);
          searchCompleted := searchCompleted.(hotels := true);
      }
      Reply(MenuAfterHotels);
    }

    /** Option 3: the date range (which may raise), then the introduction and the rest of the menu. */
    method RunRecommendations()
      requires WellFormed(State())
      modifies this
      ensures State() == RecommendationsTurn(old(State()))
    {
      var dates := DateRange(tripDetails);
      if dates.None? {
        Recover();
        return;
      }
      Reply(RecommendationsIntro(tripDetails[Destination]));
      searchCompleted := searchCompleted.(recommendations := true);
      Reply(MenuAfterRecommendations);
    }

    /** Step "actions": the first action the message names; the step is set before the search runs. */
    method ChooseNextAction(userInput: string, ext: External)
      requires WellFormed(State())
      modifies this
      ensures State() == ActionsTurn(old(State()), userInput, ext)
    {
      match ChooseAction(userInput)
      case None =>
      case Some(SearchFlights) =>
        currentStep := FlightsStep;
        RunFlightSearch(ext.flightSearch);
      case Some(FindHotels) =>
        currentStep := HotelsStep;
        RunHotelSearch(ext);
      case Some(GetRecommendations) =>
        currentStep := RecommendationsStep;
        RunRecommendations();
      case Some(StartOver) =>
        InitSessionState();
        Reply(StartOverReply);
    }

    /**
     * The handler run on one chat message: record it, then branch on
     * `current_step`, and outside "trip_details" and "actions" on
     * `awaiting_input`, whose field receives the message verbatim.
     */
    method Turn(userInput: string, ext: External)
      requires WellFormed(State())
      modifies this
      ensures State() == NextState(old(State()), userInput, ext)
      ensures WellFormed(State())
    {
      if userInput == "" {
        return;
      }
      conversation := conversation + [Message(User, userInput)];
      if currentStep == TripDetailsStep {
        CollectDetails(ext.extraction);
      } else if currentStep == ActionsStep {
        ChooseNextAction(userInput, ext);
      } else if awaitingInput.Some? {
        var field := awaitingInput.value;
        tripDetails := tripDetails[field := Str(userInput)];
        awaitingInput := None;
        AskOrOfferActions();
      }
    }

    /** One run of the script: `init_session_state` at the top, then the handler on the message, if any. */
    method Rerun(userInput: string, ext: External)
      requires Valid()
      modifies this
      ensures State() == NextState(InitState(old(State())), userInput, ext)
      ensures WellFormed(State())
    {
      InitSessionState();
      Turn(userInput, ext);
    }
  }
}
