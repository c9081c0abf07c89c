# Travel planning assistant: the trip-detail dialogue

This project models the dialogue at the heart of the Streamlit travel
assistant `Travel_streamlit_app.py`:

- the session state it keeps in `st.session_state`: `conversation`,
  `trip_details`, `awaiting_input`, `current_step` and `search_completed`;
- `init_session_state`, which creates whichever of those keys are absent;
- the merge of the details the language model extracts into the six-key
  trip profile (`origin`, `destination`, `departure_date`, `return_date`,
  `travelers`, `trip_type`);
- `check_missing_details`, which reports the empty required details in priority order;
- `build_flight_payload`, which builds the flight-offer search request;
- the clean-up of the model's reply before JSON decoding, which strips a
  Markdown code fence;
- the handler that runs on each chat message. It is a state machine over
  `current_step` ("trip_details", "actions", "flights", "hotels",
  "recommendations") and `awaiting_input`. It includes the choice of action
  by keyword or menu number, the date range for recommendations, and the
  `except` fallback.

The model follows the code as written. Three consequences are proved:

- While details are collected, `current_step` stays "trip_details", so every
  follow-up answer goes through extraction again. The branch that writes a
  message verbatim into the awaited field is reached only from the steps
  "flights", "hotels" and "recommendations".
- `awaiting_input` is not cleared when the profile becomes complete.
- "Start over" calls `init_session_state`, which leaves existing keys alone,
  so it resets nothing.

A fourth follows from these: once a search has moved the step to
"flights", "hotels" or "recommendations" and nothing is awaited, every later
message is only recorded. Nothing returns the step to "actions" then, so the
menus offered after each search (lines 445-448, 489-492 and 520-523) cannot
be acted on.

The line at 459 opens a parenthesis that is never closed, so the file as it
stands is not valid Python. The model reads that parenthesis as closed at
the end of line 460, which is what the indentation shows was meant.

Layout:

- `text.dfy` (module `Text`): Python's `strip()`, ASCII `lower()`, substring
  containment, `startswith` and `str()` of integers.
- `values.dfy` (module `Values`): decoded JSON scalars, with Python
  truthiness and `str()`.
- `trip_details.dfy` (module `TripDetails`): the profile, its defaults, the
  merge and `check_missing_details`.
- `flight_payload.dfy` (module `FlightPayload`): `build_flight_payload`.
- `extraction.dfy` (module `Extraction`): the fence stripping.
- `dialogue.dfy` (module `Dialogue`): one turn as a function `NextState`
  from one snapshot of the session to the next, built from one function per
  branch.
- `dialogue_properties.dfy` (module `DialogueProperties`): per-branch
  behaviour, invariants kept by every turn, and conversations played turn by
  turn.
- `session.dfy` (module `App`): the class `Session`. Its fields are those of
  `st.session_state`, and its methods update them in place. Each method is
  proved to produce exactly the snapshot that the corresponding `Dialogue`
  function describes.

What the world answers during a turn is a parameter of the turn, of type
`External`:

- the patch the language model extracted, if any;
- whether the token request and the flight search found offers;
- the same for the hotel search;
- whether the check-out computation at lines 459-460 succeeds on a
  departure date that is a string. `datetime.strptime` must accept the date,
  and adding three days must stay within the representable dates.

## Model

| member | source | states |
|---|---|---|
| Values.Truthy | Travel_streamlit_app.py:214-218 | Python truthiness as used by `not details.get(...)` here and by the return-date tests at 231, 387, 459 and 503: the falsy values are exactly "", 0, False and None |
| Text.Strip | Travel_streamlit_app.py:201-207 | `str.strip()`: the result has no whitespace at either end (Python's `isspace` set) and is no longer than the input |
| Text.StripOfPadded | Travel_streamlit_app.py:201 | stripping removes exactly the whitespace around a text whose own ends are not whitespace |
| Text.StripIdempotent | Travel_streamlit_app.py:201 | `strip()` is idempotent |
| Text.Lower | Travel_streamlit_app.py:420 | `lower()` keeps the length and maps each character through ASCII lower-casing: 'A' to 'Z' move up by 32 to 'a' to 'z', everything else is kept |
| Text.NatToString | Travel_streamlit_app.py:245-250 | `str(i+1)` is a non-empty string of decimal digits with no leading zero |
| Text.NatToStringRoundTrip | Travel_streamlit_app.py:245-250 | reading back the decimal text of n gives n |
| Text.NatToStringInjective | Travel_streamlit_app.py:245-250 | different numbers get different decimal texts |
| TripDetails.Defaults | Travel_streamlit_app.py:13-20 | the fresh profile has exactly the six schema keys, empty origin, destination and dates, one traveller and "one-way" |
| TripDetails.Merged | Travel_streamlit_app.py:361-363 | the merged profile has exactly the keys of the old profile |
| TripDetails.ApplyPatch | Travel_streamlit_app.py:361-363 | the key-by-key loop leaves exactly the merged profile, whatever order it visits the patch's keys in |
| TripDetails.MergeOverwritesWithEmpty | Travel_streamlit_app.py:362-363 | a present key takes the patch's value even when that value is empty or null, so a filled detail can be blanked |
| TripDetails.MergeIgnoresUnknownKeys | Travel_streamlit_app.py:362 | patch keys outside the profile have no effect |
| TripDetails.MergeIdempotent | Travel_streamlit_app.py:361-363 | merging the same patch twice is merging it once |
| TripDetails.MergeSequential | Travel_streamlit_app.py:361-363 | two merges in a row equal one merge of the union, with the later patch winning |
| TripDetails.ReturnDateDoesNotForceRoundTrip | Travel_streamlit_app.py:361-363 | a patch that sets `return_date` does not make a one-way trip round-trip |
| TripDetails.FalsyFields | Travel_streamlit_app.py:218 | the comprehension keeps exactly the listed fields whose value is falsy or absent; when the list is in priority order, so is the result |
| TripDetails.MissingDetails | Travel_streamlit_app.py:214-218 | a field is reported iff it is origin, destination or departure date, or return date on a round trip, and is falsy or absent; reports are in priority order; `travelers` and `trip_type` are never reported |
| TripDetails.NoneMissingIffComplete | Travel_streamlit_app.py:214-218 | nothing is reported missing exactly when every required detail is filled in |
| TripDetails.FirstMissingIsFirstGap | Travel_streamlit_app.py:214-218 | every required detail ranked before the first reported one is filled in |
| TripDetails.DefaultsMissing | Travel_streamlit_app.py:13-20 | the fresh profile lacks origin, destination and departure date, in that order |
| FlightPayload.TravelerEntries | Travel_streamlit_app.py:245-250 | n travellers; the i-th has id `str(i+1)` and type "ADULT" |
| FlightPayload.BuildFlightPayload | Travel_streamlit_app.py:220-264 | fails iff `range()` rejects the traveller count, that is, it is a string or `None`; the error carries that count. Otherwise: leg 1 is origin to destination on the departure date at 10:00:00. Leg 2 exists iff the trip is round-trip with a return date, and it swaps the ends and uses the return date at 10:00:00. The travellers number the count when it is a positive integer, none for zero or a negative one, and one for `True` and none for `False` (a `bool` is an `int`); the i-th is an ADULT with id `str(i+1)`. The one cabin restriction is ECONOMY over MOST_SEGMENTS and names ["1","2"] iff round-trip. Currency is INR, source GDS, at most 5 offers |
| FlightPayload.TravelerIdsCountFromOne | Travel_streamlit_app.py:245-250 | the i-th traveller's id is all digits and reads back as i + 1 |
| FlightPayload.TravelerIdsDistinct | Travel_streamlit_app.py:245-250 | no two travellers share an id |
| FlightPayload.LegsNamedInCabinRestriction | Travel_streamlit_app.py:231-259 | every leg built is named in the cabin restriction |
| FlightPayload.RoundTripWithoutReturnDateNamesAbsentLeg | Travel_streamlit_app.py:231-259 | a round trip without a return date gets one leg, yet the cabin restriction names leg "2" |
| Extraction.Unfence | Travel_streamlit_app.py:204-207 | the fence cut never lengthens the text and keeps an already stripped text stripped |
| Extraction.CleanResponse | Travel_streamlit_app.py:201-207 | the text handed to `json.loads` has no surrounding whitespace and is no longer than the reply |
| Extraction.UnwrapsJsonFence | Travel_streamlit_app.py:201-205 | a reply of the form json-fence, body, fence (padded by whitespace) yields the body, stripped |
| Extraction.UnwrapsBareFence | Travel_streamlit_app.py:201-207 | a bare fenced reply yields the body, stripped, provided the body does not begin with "json" |
| Extraction.UnfencedOnlyStripped | Travel_streamlit_app.py:201-207 | a reply that does not start with a fence is only stripped |
| Extraction.UnclosedFenceLosesThreeCharacters | Travel_streamlit_app.py:204-205 | a json fence that is never closed still cuts the reply's last three characters |
| Extraction.UnclosedBareFenceLosesThreeCharacters | Travel_streamlit_app.py:206-207 | a bare fence that is never closed also cuts the reply's last three characters |
| Dialogue.InitState | Travel_streamlit_app.py:9-30 | after initialisation every key exists, the profile has the six schema keys, and any awaited field is an askable one |
| Dialogue.InitFreshSession | Travel_streamlit_app.py:9-30 | on an empty session: empty conversation, default profile, nothing awaited, step "trip_details", no search done |
| Dialogue.InitKeepsExistingSession | Travel_streamlit_app.py:9-30 | when every key exists, initialisation changes nothing |
| Dialogue.InitIdempotent | Travel_streamlit_app.py:9-30 | initialising twice is initialising once |
| Dialogue.MissingDetailsHaveQuestions | Travel_streamlit_app.py:369-376 | every detail that can be reported missing has a non-empty question and is askable |
| Dialogue.DateRange | Travel_streamlit_app.py:502-504 | without a return date the range is the departure date. With one, joining succeeds iff both dates are strings; the result is then the departure date, followed by " to " and the return date |
| Dialogue.DateRangeNamesBothDates | Travel_streamlit_app.py:502-504 | a joined range contains both the departure and the return date |
| Dialogue.ChooseAction | Travel_streamlit_app.py:419-531 | the chosen action is named by the message (keyword in any case, or menu number); no action tested earlier is named; nothing is chosen iff no action is named |
| Dialogue.AskOrOffer | Travel_streamlit_app.py:366-403 | asks for a gap or offers the actions. The conversation grows; profile and search flags are kept. With a gap, the first gap is awaited and its question is the one message appended. Without one, the awaited field is kept, the summary and the menu are the one message appended, and the step becomes "actions"; otherwise the step is unchanged |
| Dialogue.RecoverFromError | Travel_streamlit_app.py:585-603 | the fallback appends the apology and the recovery menu and changes nothing else, so the step stays where the failed branch put it |
| Dialogue.ExtractionTurn | Travel_streamlit_app.py:355-417 | step "trip_details" keeps the state well-formed, grows the conversation and leaves the search flags alone |
| Dialogue.FlightsTurn | Travel_streamlit_app.py:421-454 | only the conversation and the flight flag change. If the payload raises, the apology and the recovery menu are appended. Otherwise nothing (no token), the no-flights or the found message is appended, then the menu without option 1. The flag ends raised iff it was raised already or the payload built and the search found offers |
| Dialogue.HotelsTurn | Travel_streamlit_app.py:457-498 | only the conversation and the hotel flag change. If the check-out date raises, the apology and the recovery menu are appended. Otherwise nothing (no token), the no-hotels or the found message is appended, then the menu without option 2. The flag ends raised iff it was raised already or the check-out date was computed and the search found offers |
| Dialogue.RecommendationsTurn | Travel_streamlit_app.py:501-529 | only the conversation and the recommendations flag change. If joining the dates raises, the apology and the recovery menu are appended; otherwise the introduction naming the destination, then the menu without option 3. The flag ends raised iff it was raised already or the date range could be joined |
| Dialogue.ActionsTurn | Travel_streamlit_app.py:419-538 | step "actions" keeps the state well-formed and never shortens the conversation |
| Dialogue.AnswerTurn | Travel_streamlit_app.py:540-583 | the verbatim-answer branch keeps the state well-formed, grows the conversation and leaves the search flags alone |
| Dialogue.NextState | Travel_streamlit_app.py:348-603 | a turn keeps the session well-formed. No message changes nothing; a message is recorded first and nothing already in the conversation is removed |
| DialogueProperties.ExtractionAsksFirstMissing | Travel_streamlit_app.py:359-379 | a non-empty patch with gaps left: the profile is the merge, the first gap is awaited and its question appended, the step stays "trip_details" |
| DialogueProperties.ExtractionOffersActions | Travel_streamlit_app.py:359-403 | a non-empty patch that completes the profile: summary and menu appended, step "actions", `awaiting_input` kept as it was |
| DialogueProperties.FailedExtractionResets | Travel_streamlit_app.py:404-417 | no patch or an empty one: profile reset to defaults, origin awaited, origin question appended |
| DialogueProperties.CollectingAlwaysExtracts | Travel_streamlit_app.py:355-417 | in step "trip_details" the profile afterwards is a merge of the patch or the defaults, never the raw message; the step ends "trip_details" or "actions" |
| DialogueProperties.UnnamedActionOnlyRecordsMessage | Travel_streamlit_app.py:419-538 | in step "actions", a message naming no action only records the message |
| DialogueProperties.StartOverResetsNothing | Travel_streamlit_app.py:531-538 | "start over" only records the message and the reply; profile, step, awaited field and flags are unchanged |
| DialogueProperties.SearchLeavesActions | Travel_streamlit_app.py:419-501 | a chosen search moves to its own step, even if it fails, and touches neither the profile nor the awaited field |
| DialogueProperties.PayloadErrorKeepsFlightsStep | Travel_streamlit_app.py:421-603 | a traveller count `range()` rejects ends in the error replies with the step left at "flights" |
| DialogueProperties.CheckOutErrorKeepsHotelsStep | Travel_streamlit_app.py:456-603 | without a return date, a departure date that is not a string or whose check-out date cannot be computed ends in the error replies with the step left at "hotels" |
| DialogueProperties.HotelSearchReports | Travel_streamlit_app.py:456-498 | with a return date, or a string departure date whose check-out date computes, the hotel search is reported and the menu without option 2 follows; the step is "hotels" and the hotel flag rises iff hotels were found |
| DialogueProperties.DateRangeErrorKeepsRecommendationsStep | Travel_streamlit_app.py:501-603 | with a return date, a departure or return date that is not a string ends in the error replies with the step left at "recommendations" |
| DialogueProperties.MenuNumbersChoose | Travel_streamlit_app.py:419-531 | the messages "1" to "4" pick flights, hotels, recommendations and start over |
| DialogueProperties.AnswerStoredVerbatim | Travel_streamlit_app.py:540-583 | past "actions", the awaited field receives the message unvalidated. Then either the next gap is awaited with the step unchanged and its question is the one reply, or nothing is awaited, the step is "actions", the profile is complete and the summary with the menu is the one reply |
| DialogueProperties.IdleStepOnlyRecordsMessage | Travel_streamlit_app.py:540 | past "actions" with nothing awaited, a message is only recorded |
| DialogueProperties.TurnKeepsActionsOnlyWhenComplete | Travel_streamlit_app.py:348-603 | invariant: whenever the step is "actions", the profile is complete |
| DialogueProperties.FreshSessionSatisfiesInvariant | Travel_streamlit_app.py:9-32 | the initialised session satisfies that invariant |
| DialogueProperties.SearchFlagsOnlyRise | Travel_streamlit_app.py:436-517 | no turn lowers a search flag |
| DialogueProperties.FlightFlagNeedsFoundOffers | Travel_streamlit_app.py:420-436 | the flight flag is raised only by a turn in "actions" that chose flights, built the payload and found offers |
| DialogueProperties.FoundFlightsRaiseFlag | Travel_streamlit_app.py:420-436 | such a turn does raise the flag and leaves the step at "flights" |
| DialogueProperties.CompleteRequestOffersActions | Travel_streamlit_app.py:359-403 | a first message carrying origin, destination, date and travellers goes straight to "actions", one-way, with two travellers |
| DialogueProperties.FreshIsDefault | Travel_streamlit_app.py:9-32 | the session the script starts from |
| DialogueProperties.DestinationOnlyMissing | Travel_streamlit_app.py:214-218 | a profile with only the destination lacks origin then departure date |
| DialogueProperties.DestinationOnlyAsksOrigin | Travel_streamlit_app.py:359-379 | a first message naming only the destination asks for the origin and awaits it |
| DialogueProperties.DelhiCompletes | Travel_streamlit_app.py:359-403 | a second message supplying origin and date completes the profile; the step becomes "actions" while the origin stays awaited |
| DialogueProperties.FlightSearchFindsOffers | Travel_streamlit_app.py:420-454 | then "1" searches flights, raises the flag and leaves the step at "flights" with the origin still awaited |
| DialogueProperties.AnswerOverwritesOrigin | Travel_streamlit_app.py:540-583 | then any message is written over the origin, and the actions are offered again |
| DialogueProperties.AwaitedFieldOutlivesCompletion | Travel_streamlit_app.py:348-603 | the whole four-turn conversation: the origin awaited in turn 1 is overwritten by the unrelated message of turn 4 |
| App.Session.constructor | Travel_streamlit_app.py:9 | a browser session before the script has run: no key exists |
| App.Session.InitSessionState | Travel_streamlit_app.py:9-30 | the five conditional assignments leave exactly the initialised snapshot |
| App.Session.Reply | Travel_streamlit_app.py:378 | appending to `conversation` leaves exactly the snapshot with one more assistant message |
| App.Session.AskOrOfferActions | Travel_streamlit_app.py:366-403 | asks for the first gap or summarises and moves to "actions", exactly as the dialogue function says |
| App.Session.Recover | Travel_streamlit_app.py:585-603 | the `except` block's two replies |
| App.Session.CollectDetails | Travel_streamlit_app.py:355-417 | the key-by-key merge followed by ask-or-offer, or the fallback, leaves the extraction turn's snapshot |
| App.Session.RunFlightSearch | Travel_streamlit_app.py:422-454 | the flight branch after the step is set |
| App.Session.RunHotelSearch | Travel_streamlit_app.py:458-498 | the hotel branch after the step is set |
| App.Session.RunRecommendations | Travel_streamlit_app.py:502-529 | the recommendations branch after the step is set |
| App.Session.ChooseNextAction | Travel_streamlit_app.py:419-538 | step "actions": first-match dispatch, and the step set before the search runs |
| App.Session.Turn | Travel_streamlit_app.py:348-603 | the handler updates the session in place to exactly `NextState` of the old session, so every property proved of `NextState` holds of it |
| App.Session.Rerun | Travel_streamlit_app.py:32-348 | one script run: initialisation, then the handler on the message, if any |

## Left out

- Network and foreign calls are not modelled: the Amadeus token, flight and
  hotel requests, and the Gemini calls in `extract_trip_details` and
  `get_travel_recommendations`, together with `json.loads`. Their results
  are inputs to the turn. The recommendation text itself, which is rendered
  but never stored, is not modelled.
- All rendering is not modelled: `st.chat_message`, `st.markdown`,
  `st.error`, `st.spinner`, `show_flight_results`, `show_hotel_results`, the
  page set-up and the replay of the conversation. An exception raised while
  rendering results is not modelled either.
- `datetime.strptime` and `timedelta` are not modelled. Whether the
  check-out computation succeeds is an input of the turn, and the check-out
  date itself is not computed.
- Line 459 of the source does not close the parenthesis it opens, so the
  file does not parse as Python and, as written, no turn ever runs. The
  model assumes the parenthesis closes at the end of line 460.
- `st.rerun()` is not modelled beyond ending the turn. Streamlit's
  re-execution of the script is modelled as `App.Session.Rerun`.
- `st.chat_input` yields `None` when there is no message; the model writes
  that as the empty string, which the handler treats the same way.
- `Values.Value` holds only strings, integers, booleans and null. JSON
  floats, arrays and objects as patch values are not modelled, and neither
  is a decoded reply that is not a JSON object.
- `FlightPayload.BuildFlightPayload` flattens the nesting of
  `departureDateTimeRange` and `searchCriteria.flightFilters` into the legs
  and the request record.
- `Text.Lower` lower-cases ASCII letters only. Python's full Unicode case
  mapping is not modelled; the keywords it is matched against are ASCII.
- `Dialogue.Summary`: the summary's exact text follows the source, but no
  property of it is stated.
- `Dialogue.ActionsTurn`: its contract states only well-formedness and
  growth of the conversation. The behaviour of each action is stated by the
  lemmas of `DialogueProperties`.
- `Dialogue.NextState`: its contract states only well-formedness and the
  recorded message. The per-branch behaviour is stated by the lemmas of
  `DialogueProperties`.
