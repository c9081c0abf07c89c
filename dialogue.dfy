/**
 * The per-turn behaviour of the trip-planning chat, as a function from one
 * snapshot of the session state to the next. The dialogue is driven by
 * `current_step` and `awaiting_input`: while the step is "trip_details",
 * every message goes through extraction; in "actions" the message picks a
 * search; in any other step a pending `awaiting_input` takes the message
 * verbatim as the awaited detail.
 */
module Dialogue {
  import opened Text
  import opened Values
  import opened Wrappers
  import opened TripDetails
  import opened FlightPayload

  datatype Role = User | Assistant

  /** One entry of `conversation`: `{"role": ..., "content": ...}`. */
  datatype Message = Message(role: Role, content: string)

  /** The values `current_step` takes: "trip_details", "actions", "flights", "hotels", "recommendations". */
  datatype Step = TripDetailsStep | ActionsStep | FlightsStep | HotelsStep | RecommendationsStep

  /** `search_completed`: which searches have returned something in this session. */
  datatype SearchCompleted = SearchCompleted(flights: bool, hotels: bool, recommendations: bool)

  /** The session-state keys `init_session_state` looks for. */
  datatype SessionKey = ConversationKey | TripDetailsKey | AwaitingInputKey | CurrentStepKey | SearchCompletedKey

  const AllKeys: set<SessionKey> :=
    {ConversationKey, TripDetailsKey, AwaitingInputKey, CurrentStepKey, SearchCompletedKey}

  /**
   * A snapshot of `st.session_state`. A field whose key is not in `keys`
   * has not been created yet, and its value carries no meaning.
   */
  datatype SessionState = SessionState(
    keys: set<SessionKey>,
    conversation: seq<Message>,
    tripDetails: Details,
    awaitingInput: Option<string>,
    currentStep: Step,
    searchCompleted: SearchCompleted)

  /** The details the dialogue ever asks for by name. */
  const AskableFields: set<string> := {Origin, Destination, DepartureDate, ReturnDate}

  /** What holds of every created key: the profile has its six keys, and an awaited field is an askable one. */
  ghost predicate Consistent(s: SessionState)
  {
    && (TripDetailsKey in s.keys ==> s.tripDetails.Keys == Schema)
    && (AwaitingInputKey in s.keys && s.awaitingInput.Some? ==> s.awaitingInput.value in AskableFields)
  }

  /** The state every turn starts from: all keys created, and consistent. */
  ghost predicate WellFormed(s: SessionState)
  {
    s.keys == AllKeys && Consistent(s)
  }

  // ---------------------------------------------------------------------------
  // init_session_state
  // ---------------------------------------------------------------------------

  const NoSearchesCompleted: SearchCompleted := SearchCompleted(false, false, false)

  /** `init_session_state`: each key that is absent gets its default; keys already present are left alone. */
  function InitState(s: SessionState): (r: SessionState)
    requires Consistent(s)
    ensures WellFormed(r)
  {
    SessionState(
      AllKeys,
      if ConversationKey in s.keys then s.conversation else [],
      if TripDetailsKey in s.keys then s.tripDetails else Defaults(),
      if AwaitingInputKey in s.keys then s.awaitingInput else None,
      if CurrentStepKey in s.keys then s.currentStep else TripDetailsStep,
      if SearchCompletedKey in s.keys then s.searchCompleted else NoSearchesCompleted)
  }

  /** On a session with no keys yet, initialisation creates the default dialogue. */
  lemma InitFreshSession(s: SessionState)
    requires s.keys == {}
    ensures InitState(s) == SessionState(AllKeys, [], Defaults(), None, TripDetailsStep, NoSearchesCompleted)
  {
  }

  /** Once every key exists, initialisation changes nothing. */
  lemma InitKeepsExistingSession(s: SessionState)
    requires WellFormed(s)
    ensures InitState(s) == s
  {
  }

  /** Initialising twice is initialising once. */
  lemma InitIdempotent(s: SessionState)
    requires Consistent(s)
    ensures InitState(InitState(s)) == InitState(s)
  {
  }

  // ---------------------------------------------------------------------------
  // What the assistant says
  // ---------------------------------------------------------------------------

  const OriginQuestion: string := "Where are you flying from? (e.g., DEL for Delhi)"

  /** The `questions` table of the turn handler. */
  const Questions: map<string, string> := map[
    Origin := OriginQuestion,
    Destination := "Where are you flying to? (e.g., BOM for Mumbai)",
    DepartureDate := "When are you departing? (e.g., 2025-05-15)",
    ReturnDate := "When will you be returning? (e.g., 2025-05-22)",
    Travelers := "How many travelers? (e.g., 2)"]

  /** `questions.get(field, "")`. */
  function Question(field: string): string
  {
    if field in Questions then Questions[field] else ""
  }

  /** Every detail that can be reported missing has a question of its own. */
  lemma MissingDetailsHaveQuestions(d: Details, i: nat)
    requires i < |MissingDetails(d)|
    ensures Question(MissingDetails(d)[i]) != ""
    ensures MissingDetails(d)[i] in AskableFields
  {
    assert MissingDetails(d)[i] in MissingDetails(d);
  }

  const NextPrompt: string := "What would you like to do next?"
  const FlightsOption: string := "1. Search flights \U{2708}\U{FE0F}"
  const HotelsOption: string := "2. Find hotels \U{1F3E8}"
  const RecommendationsOption: string := "3. Get travel recommendations \U{1F334}"
  const StartOverOption: string := "4. Start over \U{1F504}"

  const ActionsMenu: string :=
    NextPrompt + "\n" + FlightsOption + "\n" + HotelsOption + "\n" + RecommendationsOption + "\n" + StartOverOption
  const MenuAfterFlights: string :=
    NextPrompt + "\n" + HotelsOption + "\n" + RecommendationsOption + "\n" + StartOverOption
  const MenuAfterHotels: string :=
    NextPrompt + "\n" + FlightsOption + "\n" + RecommendationsOption + "\n" + StartOverOption
  const MenuAfterRecommendations: string :=
    NextPrompt + "\n" + FlightsOption + "\n" + HotelsOption + "\n" + StartOverOption

  const FlightsFound: string := "Here are some flight options I found:"
  const NoFlights: string := "Sorry, I couldn't find any flights. Would you like to try different dates?"
  const HotelsFound: string := "Here are some hotel options I found:"
  const NoHotels: string := "Sorry, I couldn't find any hotels. Would you like to try a different location or dates?"
  const StartOverReply: string := "Let's start over! Where would you like to go?"
  const ErrorApology: string := "Sorry, I encountered an error. Let's continue our conversation."
  const ErrorOptions: string := "What would you like to do?\n1. Try again\n2. Start over\n3. Continue with another request"

  /** The `except` block's two replies. */
  const ErrorReplies: seq<Message> := [Message(Assistant, ErrorApology), Message(Assistant, ErrorOptions)]

  /** The summary shown once nothing is missing; the return line appears only when a return date is set. */
  function Summary(d: Details): string
    requires Schema <= d.Keys
  {
    "Great! I have your trip details:\n- From: " + PyStr(d[Origin])
    + "\n- To: " + PyStr(d[Destination])
    + "\n- Departure: " + PyStr(d[DepartureDate])
    + (if Truthy(d[ReturnDate]) then "\n- Return: " + PyStr(d[ReturnDate]) else "")
    + "\n- Travelers: " + PyStr(d[Travelers])
  }

  function RecommendationsIntro(destination: Value): string
  {
    "Here are recommendations for your trip to " + PyStr(destination) + ":"
  }

  /**
   * The `dates` string handed to the recommendation request: the departure
   * date, followed by " to " and the return date when one is set. Joining
   * raises a `TypeError` (here `None`) unless both are strings.
   */
  function DateRange(d: Details): (r: Option<Value>)
    requires DepartureDate in d
    ensures !Truthy(Get(d, ReturnDate)) ==> r == Some(d[DepartureDate])
    ensures Truthy(Get(d, ReturnDate)) ==> (r.Some? <==> d[DepartureDate].Str? && d[ReturnDate].Str?)
    ensures Truthy(Get(d, ReturnDate)) && r.Some? ==>
      && r.value.Str?
      && StartsWith(r.value.s, d[DepartureDate].s)
      && r.value.s[|d[DepartureDate].s|..] == " to " + d[ReturnDate].s
  {
    var departure := d[DepartureDate];
    if !Truthy(Get(d, ReturnDate)) then Some(departure)
    else
      match (departure, d[ReturnDate])
      case (Str(from), Str(to)) =>
        assert (from + " to " + to)[..|from|] == from;
        assert (from + " to " + to)[|from|..] == " to " + to;
        Some(Str(from + " to " + to))
      case _ => None
  }

  /** The range handed to the recommendation request names both dates. */
  lemma DateRangeNamesBothDates(d: Details)
    requires DepartureDate in d && Truthy(Get(d, ReturnDate)) && DateRange(d).Some?
    ensures Contains(DateRange(d).value.s, d[DepartureDate].s)
    ensures Contains(DateRange(d).value.s, d[ReturnDate].s)
  {
    var r := DateRange(d).value.s;
    var from := d[DepartureDate].s;
    var to := d[ReturnDate].s;
    assert OccursAt(r, from, 0);
    assert r[|from|..][4..] == to;
    assert OccursAt(r, to, |from| + 4);
  }

  // ---------------------------------------------------------------------------
  // The choice of action
  // ---------------------------------------------------------------------------

  datatype Action = SearchFlights | FindHotels | GetRecommendations | StartOver

  /** The order in which the handler tests the actions. */
  function Priority(a: Action): nat
  {
    match a
    case SearchFlights => 0
    case FindHotels => 1
    case GetRecommendations => 2
    case StartOver => 3
  }

  function Keyword(a: Action): string
  {
    match a
    case SearchFlights => "flight"
    case FindHotels => "hotel"
    case GetRecommendations => "recommendation"
    case StartOver => "start over"
  }

  function MenuNumber(a: Action): string
  {
    match a
    case SearchFlights => "1"
    case FindHotels => "2"
    case GetRecommendations => "3"
    case StartOver => "4"
  }

  /** The message names the action: its keyword, in any letter case, or its menu number. */
  predicate Names(input: string, a: Action)
  {
    Contains(Lower(input), Keyword(a)) || Contains(input, MenuNumber(a))
  }

  /** The `if`/`elif` chain over the message in step "actions": the first action named wins. */
  function ChooseAction(input: string): (r: Option<Action>)
    ensures r.Some? ==> Names(input, r.value)
    ensures r.Some? ==> forall b :: Priority(b) < Priority(r.value) ==> !Names(input, b)
    ensures r.None? <==> forall a :: !Names(input, a)
  {
    if Names(input, SearchFlights) then Some(SearchFlights)
    else if Names(input, FindHotels) then Some(FindHotels)
    else if Names(input, GetRecommendations) then Some(GetRecommendations)
    else if Names(input, StartOver) then Some(StartOver)
    else None
  }

  // ---------------------------------------------------------------------------
  // One turn
  // ---------------------------------------------------------------------------

  /** How a token request plus a search went: no token (nothing said), no results, or results. */
  datatype SearchOutcome = NoToken | NoResults | Found

  /**
   * What the world outside the dialogue answers during one turn: the patch
   * the language model extracted (or `None`), how the flight and hotel
   * searches went, and whether the check-out computation succeeds on a
   * departure date that is a string: `datetime.strptime` must accept it as
   * `%Y-%m-%d`, and adding three days must not pass the last representable
   * date. A turn consults only the parts its branch needs.
   */
  datatype External = External(
    extraction: Option<Details>,
    flightSearch: SearchOutcome,
    hotelSearch: SearchOutcome,
    checkOutComputes: bool)

  /** `conversation.append(...)` of an assistant message. */
  function Say(s: SessionState, text: string): (r: SessionState)
    ensures r.conversation == s.conversation + [Message(Assistant, text)]
  {
    s.(conversation := s.conversation + [Message(Assistant, text)])
  }

  /**
   * The tail shared by the extraction and the literal-answer branches: ask
   * for the first missing detail and await it, or summarise, offer the
   * actions and move to step "actions" (leaving `awaiting_input` as it was).
   */
  function AskOrOffer(s: SessionState): (r: SessionState)
    requires WellFormed(s)
    ensures WellFormed(r)
    ensures s.conversation < r.conversation
    ensures r.tripDetails == s.tripDetails && r.searchCompleted == s.searchCompleted
    ensures r.currentStep == (if IsComplete(s.tripDetails) then ActionsStep else s.currentStep)
    ensures MissingDetails(s.tripDetails) != [] ==>
              && r.awaitingInput == Some(MissingDetails(s.tripDetails)[0])
              && r.conversation == s.conversation + [Message(Assistant, Question(MissingDetails(s.tripDetails)[0]))]
    ensures MissingDetails(s.tripDetails) == [] ==>
              && r.awaitingInput == s.awaitingInput
              && r.conversation == s.conversation + [Message(Assistant, Summary(s.tripDetails) + "\n\n" + ActionsMenu)]
  {
    var missing := MissingDetails(s.tripDetails);
    MissingHeadIsAskable(s.tripDetails);
    NoneMissingIffComplete(s.tripDetails);
    if missing != [] then
      Say(s.(awaitingInput := Some(missing[0])), Question(missing[0]))
    else
      Say(s, Summary(s.tripDetails) + "\n\n" + ActionsMenu).(currentStep := ActionsStep)
  }

  /** The `except` handler: an apology and a menu; the step is left as the failed branch set it. */
  function RecoverFromError(s: SessionState): (r: SessionState)
    ensures r.conversation == s.conversation + ErrorReplies
    ensures r == s.(conversation := r.conversation)
  {
    Say(Say(s, ErrorApology), ErrorOptions)
  }

  /** Step "trip_details": merge a non-empty patch and ask or offer; otherwise reset the profile and ask for the origin. */
  function ExtractionTurn(s: SessionState, extraction: Option<Details>): (r: SessionState)
    requires WellFormed(s)
    ensures WellFormed(r)
    ensures s.conversation < r.conversation
    ensures r.searchCompleted == s.searchCompleted
  {
    if extraction.Some? && extraction.value != map[] then
      AskOrOffer(s.(tripDetails := Merged(s.tripDetails, extraction.value)))
    else
      Say(s.(tripDetails := Defaults(), awaitingInput := Some(Origin)), OriginQuestion)
  }

  /** The report of a search: nothing without a token, else the no-results or the found message. */
  function SearchReport(outcome: SearchOutcome, found: string, none: string): seq<Message>
  {
    match outcome
    case NoToken => []
    case NoResults => [Message(Assistant, none)]
    case Found => [Message(Assistant, found)]
  }

  /** Option 1: the payload may raise; otherwise report the search and offer the other options. */
  function FlightsTurn(s: SessionState, outcome: SearchOutcome): (r: SessionState)
    requires WellFormed(s)
    ensures WellFormed(r)
    ensures s.conversation < r.conversation
    ensures BuildFlightPayload(s.tripDetails).Failure? ==> r.conversation == s.conversation + ErrorReplies
    ensures BuildFlightPayload(s.tripDetails).Success? ==>
              r.conversation == s.conversation + SearchReport(outcome, FlightsFound, NoFlights)
                                + [Message(Assistant, MenuAfterFlights)]
    ensures r == s.(conversation := r.conversation, searchCompleted := r.searchCompleted)
    ensures r.searchCompleted == s.searchCompleted.(flights := r.searchCompleted.flights)
    ensures r.searchCompleted.flights
            <==> s.searchCompleted.flights || (outcome == Found && BuildFlightPayload(s.tripDetails).Success?)
  {
    if BuildFlightPayload(s.tripDetails).Failure? then RecoverFromError(s)
    else
      var searched := match outcome
        case NoToken => s
        case NoResults => Say(s, NoFlights)
        case Found => Say(s, FlightsFound).(searchCompleted := s.searchCompleted.(flights := true));
      Say(searched, MenuAfterFlights)
  }

  /**
   * Whether computing the check-out date raises. With a return date the
   * return date is used as it is. Without one the check-out date is the
   * departure date plus three days: `strptime` raises a `TypeError` on a
   * departure date that is not a string, and otherwise the computation
   * raises exactly when the world says it does.
   */
  predicate CheckOutFails(d: Details, checkOutComputes: bool)
    requires Schema <= d.Keys
  {
    !Truthy(d[ReturnDate]) && !(d[DepartureDate].Str? && checkOutComputes)
  }

  /** Option 2: the check-out date may raise; otherwise report the search and offer the other options. */
  function HotelsTurn(s: SessionState, ext: External): (r: SessionState)
    requires WellFormed(s)
    ensures WellFormed(r)
    ensures s.conversation < r.conversation
    ensures CheckOutFails(s.tripDetails, ext.checkOutComputes) ==> r.conversation == s.conversation + ErrorReplies
    ensures !CheckOutFails(s.tripDetails, ext.checkOutComputes) ==>
              r.conversation == s.conversation + SearchReport(ext.hotelSearch, HotelsFound, NoHotels)
                                + [Message(Assistant, MenuAfterHotels)]
    ensures r == s.(conversation := r.conversation, searchCompleted := r.searchCompleted)
    ensures r.searchCompleted == s.searchCompleted.(hotels := r.searchCompleted.hotels)
    ensures r.searchCompleted.hotels <==>
              s.searchCompleted.hotels || (ext.hotelSearch == Found && !CheckOutFails(s.tripDetails, ext.checkOutComputes))
  {
    if CheckOutFails(s.tripDetails, ext.checkOutComputes) then
      RecoverFromError(s)
    else
      var searched := match ext.hotelSearch
        case NoToken => s
        case NoResults => Say(s, NoHotels)
        case Found => Say(s, HotelsFound).(searchCompleted := s.searchCompleted.(hotels := true));
      Say(searched, MenuAfterHotels)
  }

  /** Option 3: joining the dates may raise; otherwise introduce the recommendations and offer the other options. */
  function RecommendationsTurn(s: SessionState): (r: SessionState)
    requires WellFormed(s)
    ensures WellFormed(r)
    ensures s.conversation < r.conversation
    ensures DateRange(s.tripDetails).None? ==> r.conversation == s.conversation + ErrorReplies
    ensures DateRange(s.tripDetails).Some? ==>
              r.conversation == s.conversation + [Message(Assistant, RecommendationsIntro(s.tripDetails[Destination])),
                                                  Message(Assistant, MenuAfterRecommendations)]
    ensures r == s.(conversation := r.conversation, searchCompleted := r.searchCompleted)
    ensures r.searchCompleted == s.searchCompleted.(recommendations := r.searchCompleted.recommendations)
    ensures r.searchCompleted.recommendations <==> s.searchCompleted.recommendations || DateRange(s.tripDetails).Some?
  {
    if DateRange(s.tripDetails).None? then RecoverFromError(s)
    else
      var told := Say(s, RecommendationsIntro(s.tripDetails[Destination]));
      Say(told.(searchCompleted := s.searchCompleted.(recommendations := true)), MenuAfterRecommendations)
  }

  /** Step "actions": the step is set before the chosen search runs; "start over" re-runs `init_session_state`. */
  function ActionsTurn(s: SessionState, input: string, ext: External): (r: SessionState)
    requires WellFormed(s)
    ensures WellFormed(r)
    ensures s.conversation <= r.conversation
  {
    match ChooseAction(input)
    case None => s
    case Some(SearchFlights) => FlightsTurn(s.(currentStep := FlightsStep), ext.flightSearch)
    case Some(FindHotels) => HotelsTurn(s.(currentStep := HotelsStep), ext)
    case Some(GetRecommendations) => RecommendationsTurn(s.(currentStep := RecommendationsStep))
    case Some(StartOver) => Say(InitState(s), StartOverReply)
  }

  /** A pending `awaiting_input` outside the first two steps: store the message verbatim, then ask or offer. */
  function AnswerTurn(s: SessionState, input: string): (r: SessionState)
    requires WellFormed(s) && s.awaitingInput.Some?
    ensures WellFormed(r)
    ensures s.conversation < r.conversation
    ensures r.searchCompleted == s.searchCompleted
  {
    var field := s.awaitingInput.value;
    AskOrOffer(s.(tripDetails := s.tripDetails[field := Str(input)], awaitingInput := None))
  }

  /**
   * One run of the handler on the message `input` ("" stands for no
   * message). The message is recorded first; then the branch is chosen by
   * `current_step`, and only outside "trip_details" and "actions" by
   * `awaiting_input`.
   */
  function NextState(s: SessionState, input: string, ext: External): (r: SessionState)
    requires WellFormed(s)
    ensures WellFormed(r)
    ensures input == "" ==> r == s
    ensures input != "" ==> s.conversation + [Message(User, input)] <= r.conversation
  {
    if input == "" then s
    else
      var heard := s.(conversation := s.conversation + [Message(User, input)]);
      var r :=
        if s.currentStep == TripDetailsStep then ExtractionTurn(heard, ext.extraction)
        else if s.currentStep == ActionsStep then ActionsTurn(heard, input, ext)
        else if s.awaitingInput.Some? then AnswerTurn(heard, input)
        else heard;
      r
  }

  lemma MissingHeadIsAskable(d: Details)
    ensures MissingDetails(d) != [] ==> MissingDetails(d)[0] in AskableFields
  {
    if MissingDetails(d) != [] {
      MissingDetailsHaveQuestions(d, 0);
    }
  }
}
