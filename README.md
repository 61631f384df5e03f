# Trip planner agent: a verified Dafny model of its control layer

The trip planner is a conversational travel agent built as a LangGraph
graph. A supervisor routes each turn to a flights or a hotels sub-graph.
The flights graph classifies the user's intent (search, book or cancel),
extracts the parameters of that action from the language model's tool
call, and calls the flight tools; the hotels graph only searches. The
tool nodes call the flight and hotel services, which wrap their booking
and cancellation calls in a retry executor with injected latency and
failures. Around this sit the translation lookup `t`, two text formatters,
the `useI18n` and `useOperationSafeguards` hooks, and small helpers of
the booking modal, the flight segment card and the hotel policy tags.

This project models that control layer in Dafny and proves what the code
promises about it. The language model's reply, today's date, generated
ids, `Math.random()` draws, `Date.now()` and the providers' HTTP answers
are parameters. Dates are day numbers, money is integer cents, and hotel
ratings are integer tenths.

One module per source file:

- `flight_schemas`, `hotel_schemas`: the Zod records as datatypes plus
  validity predicates.
- `flight_extraction`, `hotel_extraction`: date inference and the
  post-model logic of the extractor nodes.
- `flight_classify`: intent normalisation.
- `flight_graph`, `hotel_graph`, `supervisor_graph`: routing functions
  and whole runs of each graph.
- `flight_tools`, `hotel_tools`: the tool nodes. They push UI directives
  into a collector object (`AgentMessages.UiCollector`, in `messages`).
- `hotel_catalog`, `hotels_api`, `flights_api`, `api_types`: the
  services and conversion helpers. The in-place `Array.prototype.sort`
  calls are an array method, `Sorting.SortArrayBy`.
- `resilience`: the retry loop as a method, plus the endpoint gate and
  the configuration merge.
- `i18n_core`: the dotted-key walk as a loop.
- `formatters`, `use_i18n`, `operation_safeguards`, `booking_modal`,
  `flight_time_format`, `hotel_policy_tags`: the utilities and UI
  helpers. The operation set, the throttle and the passenger form are
  classes whose methods update their fields.
- `wrappers`, `strings`, `sequences`, `sorting`: shared JavaScript
  semantics and lemmas. This covers `||` truthiness, `toLowerCase` and
  `toUpperCase` on ASCII and Latin-1 letters, `trim`, `split`, `join`
  and `includes`, filters, and a stable sort.

Where the repository's written description and its code differ, the model
follows the code:

- The flight classifier sets only `intent`. It does not append the model's
  reply to the messages.
- A flight search call without origin or destination answers with a fixed
  text that does not name the missing fields.
- A hotel search call without a city appends only the model's reply, with
  no tool-result message.

## Model

| member | source | states |
|---|---|---|
| FlightExtraction.ShiftDate | src/agent/flights/nodes/extraction.ts:35-40 | a date moved by k days is k days later; a text that is not a date makes `toISOString` throw "Invalid time value" |
| FlightExtraction.CalculateDates | src/agent/flights/nodes/extraction.ts:15-60 | no dates give today+28 and today+35; one date gives the other a week away; an unparsable single date throws; two dates are returned as given |
| FlightExtraction.CalculateDatesDefined | src/agent/flights/nodes/extraction.ts:15-60 | whenever it returns, both dates are present, and a date the model supplied comes back unchanged |
| FlightExtraction.InferredWindowIsOneWeek | src/agent/flights/nodes/extraction.ts:21-54 | whenever a date is inferred, the return is exactly seven days after the departure |
| FlightExtraction.CalculateDatesFailsOnlyOnBadSingleDate | src/agent/flights/nodes/extraction.ts:33-54 | it throws if and only if exactly one date is given and that text is not a date |
| FlightExtraction.SearchParamsWithDefaults | src/agent/flights/nodes/extraction.ts:180-189 | the search slot keeps the endpoints and computed dates, takes adults `|| 1` and each flag `|| false` |
| FlightExtraction.ExtractFlightSearch | src/agent/flights/nodes/extraction.ts:62-202 | no first call: the response plus one "no extraction needed" answer per call; missing endpoints: no slot and the fixed message; otherwise the defaulted slot and a success answer, or the date error; every tool message id is internal |
| FlightExtraction.SearchSlotSetIff | src/agent/flights/nodes/extraction.ts:137-202 | the slot is set exactly when there is a first call with truthy endpoints and computable dates, and then has at least one adult when the model gave none or a non-negative count |
| FlightExtraction.ExtractedAdultsUnchecked | src/agent/flights/nodes/extraction.ts:185 | twelve extracted adults give a slot that the search schema's 1..9 bound rejects |
| FlightExtraction.SearchSlotSchemaIff | src/agent/flights/nodes/extraction.ts:180-189 | a search slot meets `listFlightsSchema` (src/agent/schemas/flights.ts:14) exactly when the model gave no adult count, 0, or a count in 1..9 |
| FlightExtraction.EndpointsSuffice | src/agent/schemas/flights.ts:88-106 | origin and destination are all a search call needs: the slot then departs in 28 days, returns 7 days later, has one adult and all flags false, and meets the schema |
| FlightExtraction.ExtractFlightBooking | src/agent/flights/nodes/extraction.ts:204-294 | the first call's arguments become the booking slot unchecked, answered by one success message; without a call no slot is set |
| FlightExtraction.ExtractFlightCancellation | src/agent/flights/nodes/extraction.ts:296-384 | the first call's arguments become the cancellation slot, answered by one success message; without a call no slot is set |
| HotelExtraction.CalculateDates | src/agent/hotels/nodes/extraction.ts:10-55 | no dates give a stay from today+28 to today+35; one date gives the other a week away; an unparsable single date throws; two dates are kept |
| HotelExtraction.CalculateDatesAgree | src/agent/hotels/nodes/extraction.ts:10-55 | the hotel copy and the flight copy of `calculateDates` agree on every input, including the error |
| HotelExtraction.InferredStayIsOneWeek | src/agent/hotels/nodes/extraction.ts:16-48 | both returned dates are present, supplied dates are kept, and an inferred stay is exactly seven nights |
| HotelExtraction.SearchParamsWithDefaults | src/agent/hotels/nodes/extraction.ts:104-112 | the hotel slot keeps the city and computed dates, takes rooms `|| 1` and each flag `|| false` |
| HotelExtraction.ExtractHotelSearch | src/agent/hotels/nodes/extraction.ts:57-123 | without a first call or a truthy city only the response is appended; otherwise the defaulted slot and a success answer, or the date error; tool ids are internal |
| HotelExtraction.SlotIffToolMessage | src/agent/hotels/nodes/extraction.ts:93-122 | the slot is set exactly when a second message answers the first call; otherwise the update is the response alone |
| HotelExtraction.SearchSlotSchemaIff | src/agent/hotels/nodes/extraction.ts:104-112 | a hotel slot meets `listHotelsSchema` (src/agent/schemas/hotels.ts:8) exactly when the model gave no room count, 0, or a count in 1..10 |
| HotelExtraction.CitySuffices | src/agent/schemas/hotels.ts:33-49 | a city is all a hotel search call needs: the slot then checks in in 28 days for 7 nights, one room, no filters, and meets the schema |
| FlightClassify.Classify | src/agent/flights/nodes/classify.ts:52-56 | the intent is Book or Cancel exactly when the lowercased, trimmed reply is "book" or "cancel", and Search in every other case |
| FlightClassify.ClassifyFlightIntent | src/agent/flights/nodes/classify.ts:52-60 | the update carries only the intent: book or cancel exactly when the lower-cased, trimmed reply is that word, search otherwise |
| FlightClassify.ClassifyMembership | src/agent/flights/nodes/classify.ts:53-56 | a normalised reply in the valid list is kept as the intent; any other reply becomes "search" |
| FlightClassify.ClassifyIdempotent | src/agent/flights/nodes/classify.ts:52-56 | classifying the name of a classified intent gives the same intent |
| FlightClassify.ClassifySpacedBook | src/agent/flights/nodes/classify.ts:52 | case and surrounding white space are ignored: " Book\n" is a booking |
| FlightClassify.ClassifyOtherReplies | src/agent/flights/nodes/classify.ts:54-56 | "Book it" and an absent reply both fall back to search |
| FlightGraph.RouteAfterClassifying | src/agent/flights/index.ts:17-32 | always an extractor: booking exactly for "book", cancellation exactly for "cancel", search otherwise and when no intent is set |
| FlightGraph.RouteAfterSearchExtraction | src/agent/flights/index.ts:34-43 | END exactly when the search slot is unset, the tool node otherwise |
| FlightGraph.RouteAfterBookingExtraction | src/agent/flights/index.ts:45-54 | END exactly when the booking slot is unset, the tool node otherwise |
| FlightGraph.RouteAfterCancellationExtraction | src/agent/flights/index.ts:56-65 | END exactly when the cancellation slot is unset, the tool node otherwise |
| FlightGraph.RoutesReadOwnSlot | src/agent/flights/index.ts:34-65 | each post-extraction route depends only on whether its own slot is set |
| FlightGraph.Next | src/agent/flights/index.ts:67-92 | every edge raises the node's rank; classify leads to an extractor, extractors to END or the tools, the tools to END |
| FlightGraph.Walk | src/agent/flights/index.ts:67-94 | a run from any node visits at most three nodes in strictly increasing rank and stops where the edge list says END |
| FlightGraph.RunShape | src/agent/flights/index.ts:11-94 | every run classifies, runs the extractor the intent selects, and reaches the tools exactly when that extractor's route says so |
| FlightGraph.ApplySearch | src/agent/flights/nodes/extraction.ts:198-201 | an update with a search slot replaces it; an update without one leaves the state as it was |
| FlightGraph.SearchExtractionDecidesRoute | src/agent/flights/index.ts:34-43 | from a state without search parameters the tools run exactly when the extraction found both endpoints; a slot already set sends the run to the tools whatever the model said |
| HotelGraph.RouteAfterExtraction | src/agent/hotels/index.ts:6-13 | the tool node exactly when a search slot is set, END otherwise |
| HotelGraph.Next | src/agent/hotels/index.ts:15-20 | every edge raises the node's rank, and the tool node always ends the run |
| HotelGraph.Walk | src/agent/hotels/index.ts:15-22 | a run from any node visits at most two nodes in increasing rank |
| HotelGraph.RunShape | src/agent/hotels/index.ts:15-22 | every run starts with extraction and reaches the tools exactly when extraction left a search slot set |
| HotelGraph.Apply | src/agent/hotels/nodes/extraction.ts:104-122 | an update with a search slot replaces it; an update without one leaves the state as it was |
| HotelGraph.ExtractionDecidesRoute | src/agent/hotels/index.ts:6-19 | from a state without search parameters the tools run exactly when the model's first call carries a truthy city |
| SupervisorGraph.HandleRoute | src/agent/supervisor/index.ts:19-23 | the router's conditional edge leads to the destination `handleRoute` returns |
| SupervisorGraph.Next | src/agent/supervisor/index.ts:25-44 | every destination, and nothing but a destination, leads to END |
| SupervisorGraph.RouterDestinations | src/agent/supervisor/index.ts:32-38 | each of the five destinations is reachable from the router, and the router leads only to a destination |
| SupervisorGraph.Run | src/agent/supervisor/index.ts:25-46 | every run is the router, then the destination it chose, then END |
| FlightTools.BookingRequest | src/agent/flights/nodes/tools.ts:101-107 | the booking request carries the slot's itinerary id, name and e-mail unchanged |
| FlightTools.BookingSlotSkipsEmailCheck | src/agent/schemas/flights.ts:108-112 | the booking slot is the model's arguments whatever the e-mail, and the request built from it meets `bookFlightSchema` (src/agent/schemas/flights.ts:30-37) exactly when the e-mail passes Zod's check |
| FlightTools.CallFlightTools | src/agent/flights/nodes/tools.ts:32-169 | pushing directives into a collector one stage at a time gives exactly the update of the staged specification `FlightToolsUpdate` |
| FlightTools.NoRecognisedCall | src/agent/flights/nodes/tools.ts:61-73 | without a recognised call the update is the response plus one internal "no matching flight tool" answer per call, in order; no UI and no timestamp |
| FlightTools.FlightToolsSuccessMessages | src/agent/flights/nodes/tools.ts:142-155 | on success every call, recognised or not, is answered in order by "Tool <name> executed successfully" with an internal id, and the UI and timestamp are set |
| FlightTools.FlightToolsSuccessDirectives | src/agent/flights/nodes/tools.ts:75-140 | on success there is one directive per recognised call, in list-book-cancel order, each answering its call with what the service returned for the state's slot |
| FlightTools.PushedParts | src/agent/flights/nodes/tools.ts:76-140 | without an error the pushed directives are the three stages' contributions, each present exactly when its tool was called |
| FlightTools.FlightToolsFailure | src/agent/flights/nodes/tools.ts:156-167 | when a stage throws, the update is the response and one "Error: ..." message keyed to the first call's id; no UI and no timestamp |
| FlightTools.MissingSlotThrows | src/agent/flights/nodes/tools.ts:77-124 | the first recognised call whose slot is unset throws its own "were not extracted" message |
| HotelTools.CallHotelTools | src/agent/hotels/nodes/tools.ts:18-82 | pushing the directive into a collector gives exactly the update of the specification `HotelToolsUpdate` |
| HotelTools.HotelToolsOutcomes | src/agent/hotels/nodes/tools.ts:37-81 | without a `list-hotels` call only the response; with it, success yields one directive keyed to the call with the slot and the service's hotels, and a missing slot yields the error message keyed to the first call |
| HotelTools.SuccessLeavesCallUnanswered | src/agent/hotels/nodes/tools.ts:64-68 | on success no tool message follows the response, so the model's calls are left unanswered |
| AgentMessages.FirstToolCall | src/agent/flights/nodes/extraction.ts:137 | the first call is present exactly when the call list is non-empty, and is its head |
| AgentMessages.FindToolCall | src/agent/flights/nodes/tools.ts:51-59 | a call is found exactly when one has the name, and it is the earliest such call |
| AgentMessages.ToolMessagesAnswer | src/agent/flights/nodes/tools.ts:143-149 | the mapped tool messages answer the calls one for one, in order |
| AgentMessages.NoCallMessagesAnswer | src/agent/flights/nodes/extraction.ts:139-149 | the placeholder answers follow the response, one per call in order, with internal ids |
| AgentMessages.NoFirstCallIsResponseOnly | src/agent/flights/nodes/extraction.ts:137-152 | when there is no first call the call list is empty, so the update is the response alone |
| AgentMessages.CaughtError | src/agent/flights/nodes/tools.ts:156-167 | a caught error becomes one tool message keyed to the first call's id, "Error: " plus the message or "Unknown error"; no UI and no timestamp |
| AgentMessages.UiCollector.Push | src/agent/flights/nodes/tools.ts:83-93 | a push appends the directive to the collected items |
| HotelCatalog.Nights | src/agent/hotels/utils/hotels-tools.ts:122-127 | the night count is defined exactly when both texts are dates, and then check-in plus the count is check-out; otherwise NaN |
| HotelCatalog.Times | src/agent/hotels/utils/hotels-tools.ts:149 | the product is NaN exactly when the night count is, and otherwise the rate times the count |
| HotelCatalog.Repriced | src/agent/hotels/utils/hotels-tools.ts:147-150 | re-pricing keeps the hotel and sets its total to nightly times nights |
| HotelCatalog.FilteredMembers | src/agent/hotels/utils/hotels-tools.ts:136-168 | every hotel left after the filters passes all three and is a re-priced catalogue hotel, and every catalogue hotel that passes is kept |
| HotelCatalog.ListHotelsSpec | src/agent/hotels/utils/hotels-tools.ts:132-174 | the result is exactly the re-priced hotels that pass the filters, ordered by rating best first, equal ratings in catalogue order |
| HotelCatalog.ListHotelsDistinct | src/agent/hotels/utils/hotels-tools.ts:137-171 | filtering, re-pricing and sorting never repeat a hotel id that the catalogue does not repeat |
| HotelCatalog.DatabaseIdsDistinct | src/agent/hotels/utils/hotels-tools.ts:4-117 | the ten catalogue hotels have distinct ids |
| HotelCatalog.TotalIgnoresRooms | src/agent/hotels/utils/hotels-tools.ts:132-174 | the room count changes nothing in the result, totals included |
| HotelCatalog.FiltersMatchTags | src/agent/hotels/utils/hotels-tools.ts:153-168 | every hotel a breakfast search returns shows the breakfast tag, and every hotel a refundable search returns shows the free-cancellation tag |
| HotelPolicyTags.Tags | src/agent-uis/hotels/hotels-list/components/HotelPolicyTags.tsx:7-39 | the breakfast tag shows exactly when the policy mentions breakfast, the cancellation tag exactly when it mentions free cancellation, breakfast first |
| HotelPolicyTags.TagsIgnoreCase | src/agent-uis/hotels/hotels-list/components/HotelPolicyTags.tsx:7-20 | a policy and its lowercase form get the same tags |
| HotelsApi.StayTotal | src/services/hotels-api.ts:189-192 | the total is NaN exactly when the night count is, and otherwise nightly times nights times rooms |
| HotelsApi.Recompute | src/services/hotels-api.ts:180-193 | the total is recomputed only when both date texts are non-empty; otherwise the stored total is kept |
| HotelsApi.SearchOnce | src/services/hotels-api.ts:153-200 | filtering and then sorting an array in place gives the specification `SearchResults` |
| HotelsApi.ListHotels | src/services/hotels-api.ts:149-204 | under the default resilience configuration "hotel-search" is not gated, so the first attempt returns the search results |
| HotelsApi.FilteredMembers | src/services/hotels-api.ts:157-193 | every filtered hotel is a catalogue hotel that passes the filters with its total recomputed, and every passing hotel is kept |
| HotelsApi.SearchSpec | src/services/hotels-api.ts:153-200 | the results are exactly the passing hotels with recomputed totals, best rating first, ties in catalogue order |
| HotelsApi.SearchDistinct | src/services/hotels-api.ts:157-196 | a search never repeats a hotel id that the catalogue does not repeat |
| HotelsApi.MockIdsDistinct | src/services/hotels-api.ts:63-144 | the seven mock hotels have distinct ids |
| HotelsApi.CityTestOneDirectional | src/services/hotels-api.ts:157-159 | a query that extends a hotel's city matches in the agent's own search but not in this one |
| HotelsApi.BreakfastTestWiderThanTag | src/services/hotels-api.ts:164-168 | the breakfast filter accepts a policy saying only "manhã", which gets no breakfast tag in the UI |
| HotelsApi.RefundableMatchesTag | src/services/hotels-api.ts:171-178 | every hotel a refundable search returns shows the free-cancellation tag |
| HotelsApi.FindHotel | src/services/hotels-api.ts:217 | a hotel is found exactly when one has the id, and it is a catalogue hotel with that id |
| HotelsApi.HotelDetails | src/services/hotels-api.ts:291-303 | the lookup fails with "Hotel <id> não encontrado" exactly when no hotel has the id; otherwise it returns a hotel with that id |
| HotelsApi.DetailsUnique | src/services/hotels-api.ts:294-298 | with distinct ids the lookup returns the one hotel with that id |
| HotelsApi.BookHotelCore | src/services/hotels-api.ts:213-251 | booking fails exactly for an unknown hotel; otherwise it is BOOKED, with the stay's nights, nightly times nights times rooms, the hotel's currency and policy, the guest and dates as given, and an id starting "HR" |
| HotelsApi.CancelHotelCore | src/services/hotels-api.ts:264-282 | cancelling fails exactly for an id not starting "HR"; otherwise it is CANCELED with a refund in 500..2499 to the original payment |
| HotelsApi.BookedReservationCancels | src/services/hotels-api.ts:233-270 | every reservation id the booking issues is accepted by the cancellation |
| HotelsApi.SearchSorted | src/services/hotels-api.ts:308-334 | sorting the search results in place by the chosen key gives the specification `SortedResults` |
| HotelsApi.SortedByRatingKeepsOrder | src/services/hotels-api.ts:321-327 | sorting by rating again, or not at all, keeps the search's order |
| HotelsApi.SortedByPriceSpec | src/services/hotels-api.ts:318-320 | sorting by price puts the cheapest nightly rate first, keeps the same hotels, and keeps rating order among equal rates |
| HotelsApi.RetrySchedules | src/services/hotels-api.ts:202 | under each operation's retry options the waits after failed attempts are 500; 1000 then 2000; 750; 300; 600 ms |
| FlightsApi.SearchRequest | src/services/flights-api.ts:39-45 | the search query keeps the route and the departure date and asks for page 1 of up to 50 results |
| FlightsApi.ListFlights | src/services/flights-api.ts:34-76 | filtering, then sorting in place and slicing when cheapest-only is set, gives the specification `ListFlightsResult`; a failed request is rethrown with its message or "Erro ao buscar voos" |
| FlightsApi.FilteredMembers | src/services/flights-api.ts:54-63 | the filters keep, in backend order, exactly the converted flights that are direct when asked and include baggage when asked |
| FlightsApi.ListWithoutCheapest | src/services/flights-api.ts:54-69 | without cheapest-only the result is the filtered flights in the backend's order |
| FlightsApi.CheapestTwo | src/services/flights-api.ts:65-67 | with cheapest-only the result is the min(2, n) cheapest filtered flights, cheapest first, and no flight left out is cheaper than one kept |
| FlightsApi.BookingPath | src/services/flights-api.ts:94-95 | the booking is posted to `/api/flights/<itineraryId>/book` |
| FlightsApi.BookingData | src/services/flights-api.ts:117-130 | the booking object is `booking`, else `data.booking`, else `data` when `success` is set, else the body itself |
| FlightsApi.BookFlightCore | src/services/flights-api.ts:82-136 | an empty body throws "Resposta da API está vazia"; otherwise the chosen object is converted, and every booking returned fits `bookFlightResponseSchema` |
| FlightsApi.EnvelopesAgree | src/services/flights-api.ts:117-127 | a booking wrapped in `booking`, in `data.booking` or in a successful `data` converts exactly as the bare booking does |
| FlightsApi.DataIgnoredWithoutSuccess | src/services/flights-api.ts:124-130 | without `success` a `data` object that has no `booking` is ignored and the outer body is converted |
| FlightsApi.BookFlight | src/services/flights-api.ts:139-148 | at most three attempts; the first successful attempt's booking, or the third failure, with the executor's backoff waits between attempts |
| FlightsApi.CancelPath | src/services/flights-api.ts:157-169 | the cancellation is sent to `/api/bookings/<pnr>/cancel`, the PNR standing for the booking id |
| FlightsApi.CancelFlightCore | src/services/flights-api.ts:153-178 | a failed request propagates; otherwise the input PNR is reported CANCELED at the current time, a record that fits `cancelFlightResponseSchema` |
| FlightsApi.CancelFlight | src/services/flights-api.ts:181-192 | the first acknowledged request among at most three gives the canceled record; three failures rethrow the last |
| FlightsApi.CancelAttemptOk | src/services/flights-api.ts:167-177 | a cancellation attempt succeeds exactly when its request does |
| FlightsApi.FlightRetryIsDefault | src/services/flights-api.ts:142-146 | the flight retry options are the executor's defaults, and neither flight operation is gated by default |
| ApiTypes.DigitRunEnd | src/services/api-types.ts:268 | the greedy `\d+` run from a position: every character before the end is a digit and the one at the end is not |
| ApiTypes.FindHours | src/services/api-types.ts:268 | the leftmost position where `(\d+)h` matches, or none when it matches nowhere |
| ApiTypes.ParseDurationToMinutes | src/services/api-types.ts:265-275 | never negative, and 120 for an absent or empty duration |
| ApiTypes.HoursSomewhereIff | src/services/api-types.ts:268-269 | the pattern matches exactly when some digit is directly followed by 'h' |
| ApiTypes.NoHoursGivesZero | src/services/api-types.ts:269 | a non-empty duration with no digit directly before an 'h' gives 0 |
| ApiTypes.ParseAt | src/services/api-types.ts:268-274 | a match read off its positions gives 60 times the hours digits plus the minute digits |
| ApiTypes.HoursAndMinutes | src/services/api-types.ts:265-275 | a digit-free lead-in, H digits, 'h', white space, M digits and a tail starting with neither a digit nor white space reads as 60*H+M |
| ApiTypes.DurationExamples | src/services/api-types.ts:265-275 | "2h 30m" is 150 minutes and "3h" is 180 |
| ApiTypes.Prefix2 | src/services/api-types.ts:161 | `substring(0, 2)` is a prefix of at most two characters |
| ApiTypes.ConvertApiFlightToItinerary | src/services/api-types.ts:153-185 | the itinerary keeps the id, airline, route, flight number, stops, baggage, price and currency; one outbound segment with the parsed duration and an upper-cased two-letter carrier; no inbound segments |
| ApiTypes.CarrierCodeShape | src/services/api-types.ts:161 | the carrier code has at most two characters and no lower-case letter |
| ApiTypes.FirstNonZero | src/services/api-types.ts:223-224 | the first present non-zero candidate, and 0 exactly when there is none |
| ApiTypes.ConvertApiBookingToResponse | src/services/api-types.ts:190-244 | a falsy input throws; no truthy reference throws with the object's keys; otherwise a TICKETED response whose PNR is the first truthy reference, total the first non-zero amount, passenger name `name`, then `fullName`, then "", e-mail `email` or "", itinerary `flightId`, then `flight_id`, then `flight.id`, then "", and creation time the first given or now |
| ApiTypes.ConvertBookingParamsToApiRequest | src/services/api-types.ts:249-260 | the request uses the fixed placeholder phone and document |
| ApiTypes.BookingRoundTrip | src/services/api-types.ts:190-260 | a backend booking that echoes the request's passenger converts back to the same passenger, itinerary and reference, for any name, e-mail and itinerary |
| I18nCore.LocaleOrDefault | src/i18n/core.ts:254 | the locale passed, or "pt-BR" when there is none |
| I18nCore.T | src/i18n/core.ts:254-268 | the loop that walks one key segment per step returns exactly the specification `Translation`: the text the segments reach, or the key |
| I18nCore.PutThenResolve | src/i18n/core.ts:255-267 | a text placed at a path of a translation object is found at that path |
| I18nCore.PutKeepsOthers | src/i18n/core.ts:255-267 | placing a text leaves every path that is neither a prefix nor an extension of it unchanged |
| I18nCore.DottedKeyFindsText | src/i18n/core.ts:254-268 | a key made by joining dot-free segments with '.' translates to the text at those segments |
| I18nCore.UnknownLocaleShowsKeys | src/i18n/core.ts:256-263 | a locale without a translation object shows every key as itself |
| I18nCore.TranslationIsKeyOrText | src/i18n/core.ts:254-268 | the result is the key or some text of the locale's object |
| Resilience.SimulatedFailure | src/utils/resilience.ts:53-69 | a failure is injected exactly when the draw is below the error rate, and its message is "Simulated API Error: " followed by one of the five listed messages |
| Resilience.WithResilience | src/utils/resilience.ts:74-97 | a name no enabled endpoint occurs in (case-insensitively) runs the operation untouched; a gated name gets the latency and, when the draw is below the error rate, fails without invoking the operation, otherwise returns the operation's outcome |
| Resilience.ResolveRetry | src/utils/resilience.ts:106-111 | each absent option takes its default (3 attempts, 1000 ms base, 5000 ms cap, base 2) and each given option is kept |
| Resilience.BackoffDelay | src/utils/resilience.ts:137-140 | the wait after a failed attempt never exceeds the cap |
| Resilience.Schedule | src/utils/resilience.ts:137-145 | the waits after the first n failed attempts are the n backoff delays in attempt order |
| Resilience.FirstOkFrom | src/utils/resilience.ts:116-126 | the first successful call in a range, and when there is none every call in the range fails |
| Resilience.WithRetry | src/utils/resilience.ts:102-150 | at most maxAttempts calls are made, every call before the last failed; with a first success at call k the result is that call's outcome after k waits of the backoff schedule; otherwise every attempt is made and the last error is thrown |
| Resilience.WithResilienceAndRetry | src/utils/resilience.ts:155-165 | the waits follow the backoff schedule; the first attempt with no injected failure whose operation succeeds ends the retry with the operation's result after that many calls; with none, every attempt is made and the last attempt's failure is thrown; an ungated name retries the bare operation; a gated name whose every draw injects a failure fails after all attempts |
| Resilience.UngatedAttemptIsOperation | src/utils/resilience.ts:79-85 | for a name the gate lets pass, every resilient attempt is the operation itself, so the retry sees the same first success |
| Resilience.AttemptOk | src/utils/resilience.ts:74-97 | a resilient attempt succeeds exactly when the gate is closed or the draw injects no failure, and the operation succeeds; its result is then the operation's |
| Resilience.BackoffMonotone | src/utils/resilience.ts:137-140 | with a base of at least 1 the waits never shrink from one attempt to the next and stay under the cap |
| Resilience.DefaultScheduleOnTotalFailure | src/utils/resilience.ts:102-150 | the default options are 3 attempts, 1000, 5000 and 2, and an always-failing call waits 1000 then 2000 ms |
| Resilience.ServiceScheduleOnTotalFailure | src/services/flights-api.ts:142-146 | the flight booking and cancellation options (3 attempts, 1000 base, 5000 cap) wait 1000 then 2000 ms |
| Resilience.DefaultGateHotelWrites | src/utils/resilience.ts:28-34 | under the default endpoints "hotel-booking" and "hotel-cancellation" are gated |
| Resilience.DefaultGateOthers | src/utils/resilience.ts:28-34 | under the default endpoints "bookFlight", "cancelFlight" and "hotel-search" are not gated: their lower-cased names hold no '/' and miss a letter of "booking" and of "cancellation" |
| Resilience.MergeConfig | src/utils/resilience.ts:170-171 | without overrides the configuration is the default one; each given key, the latency range included, replaces the default and each absent key keeps it |
| Resilience.ExecutorRetryOptions | src/utils/resilience.ts:177-185 | the executor retries with the configuration's attempts and base delay, the 5000 ms cap and base 2 |
| Resilience.HookDefaultsMatchRetryDefaults | src/utils/resilience.ts:170-185 | without overrides the hook retries exactly as a bare `withRetry` |
| Resilience.ExecuteWithResilience | src/utils/resilience.ts:173-186 | at most the configured number of attempts is made, with the backoff schedule of the configured base delay, 5000 ms cap and base 2; the first successful resilient attempt gives the operation's result, and with none every attempt is made and the call fails |
| Formatters.JsRem | src/i18n/utils/formatters.ts:98 | the remainder equals the mathematical one for a non-negative dividend and lies in (-b, 0] for a negative one |
| Formatters.FormatDuration | src/i18n/utils/formatters.ts:93-109 | under an hour the text is the minutes and the locale's unit; a whole number of hours is "<h>h"; otherwise "<h>h <m>" and the unit ("min" for pt-BR, "m" otherwise) |
| Formatters.FormatDurationRoundTrip | src/i18n/utils/formatters.ts:93-109 | the API layer's duration parser reads every formatted duration of an hour or more back as the minutes it came from, in either locale |
| Formatters.FormatDurationUnderAnHourLost | src/i18n/utils/formatters.ts:101-105 | a duration under an hour is written without an "h", and the parser reads it back as 0 |
| Formatters.ListText | src/i18n/utils/formatters.ts:114-128 | no items give "", one item gives itself, two or more give the items but the last joined by ", ", the connector (" e " in pt-BR, " and " for two, ", and " for more) and the last item |
| Formatters.ListTextMentionsAll | src/i18n/utils/formatters.ts:114-128 | every item occurs in the list text |
| Formatters.StringList.Pop | src/i18n/utils/formatters.ts:126 | `pop` returns the last element and removes it from the caller's array |
| Formatters.FormatList | src/i18n/utils/formatters.ts:114-128 | the returned text is the list text of the items given, and with three items or more the caller's array loses its last element |
| Formatters.FormatListTwice | src/i18n/utils/formatters.ts:126 | formatting the same three-city array twice gives "Paris, Roma, and Lisboa" and then "Paris and Roma" |
| UseI18n.ExtractLanguageFromContext | src/hooks/useI18n.ts:6-14 | the first non-empty of `input.context.language`, `context.language` and `language`, or null; never an empty text |
| UseI18n.UseI18n | src/hooks/useI18n.ts:21-32 | the locale is the language when it is a non-empty text and "en-US" otherwise, with no check against the known locales |
| UseI18n.Translate | src/hooks/useI18n.ts:26 | the translation is the key itself or comes from the tables of the hook's locale |
| UseI18n.HookDefaultDiffersFromCore | src/hooks/useI18n.ts:23 | without a language the hook translates in "en-US", while `t` without a locale translates in "pt-BR" |
| UseI18n.UnknownLanguageShowsKeys | src/hooks/useI18n.ts:21-32 | a language the tables do not know reaches `t` unchanged and every key shows as itself |
| UseI18n.NestedLanguageWins | src/hooks/useI18n.ts:8-13 | the language under `input.context` wins over the outer one, and an empty nested language gives way to it |
| OperationSafeguards.Remove | src/hooks/useOperationSafeguards.ts:77-79 | deleting an id removes it and keeps every other id, in order and without duplicates |
| OperationSafeguards.RemoveAbsent | src/hooks/useOperationSafeguards.ts:77-79 | deleting an id that is not active changes nothing |
| OperationSafeguards.AddThenRemove | src/hooks/useOperationSafeguards.ts:67-79 | starting a new id and ending it gives back the set as it was |
| OperationSafeguards.RemoveTwice | src/hooks/useOperationSafeguards.ts:77-79 | ending an operation twice is the same as ending it once |
| OperationSafeguards.OperationControl.StartOperation | src/hooks/useOperationSafeguards.ts:67-75 | an operation starts exactly when its id is not active, and then joins the set at the end; a refused start changes nothing; ids stay distinct |
| OperationSafeguards.OperationControl.EndOperation | src/hooks/useOperationSafeguards.ts:77-79 | the id leaves the set and the ids stay distinct |
| OperationSafeguards.OperationControl.IsOperationActive | src/hooks/useOperationSafeguards.ts:81-83 | true exactly for the active ids |
| OperationSafeguards.OperationControl.GetActiveOperations | src/hooks/useOperationSafeguards.ts:89 | every active id exactly once and nothing else |
| OperationSafeguards.ThrottleRuns | src/hooks/useOperationSafeguards.ts:39-58 | over a series of calls the throttle runs a subsequence of them, the first at least `delay` after the last run and each later one at least `delay` after the one before |
| OperationSafeguards.Throttle.Run | src/hooks/useOperationSafeguards.ts:42-55 | a call runs exactly when `delay` has passed since the last run, and then records its time and returns the function's outcome; otherwise it returns null and keeps the time |
| OperationSafeguards.Safeguards.constructor | src/hooks/useOperationSafeguards.ts:96-104 | no operation is active, the throttle has not run and its delay is the option or 1000 ms |
| OperationSafeguards.Safeguards.SafeExecute | src/hooks/useOperationSafeguards.ts:106-139 | an active id is refused with null and nothing changes; a throttled call returns null and leaves the set as it was; a call that runs returns the function's outcome and starts a release timer, and the id stays active unless the result is `null` (strictly: `undefined` keeps it) |
| OperationSafeguards.Safeguards.FireTimer | src/hooks/useOperationSafeguards.ts:125-127 | the oldest release timer fires and ends its operation |
| OperationSafeguards.VoidCallbackBlocksUntilTimer | src/hooks/useOperationSafeguards.ts:120-134 | a callback returning `undefined` keeps its id active: a second call with that id is refused even after the throttle delay, and runs again once the release timer fired |
| FlightTimeFormat.DigitSuffixStart | src/agent-uis/flights/flights-list/components/BookingModal.tsx:7 | the digits that end a text start here, and the character before them, if any, is not a digit |
| FlightTimeFormat.FormatTime | src/agent-uis/flights/flights-list/components/BookingModal.tsx:6-8 | a trailing '+' and digits are removed where the pattern matches, and a text without one is returned as it is |
| FlightTimeFormat.FormatTimeNotIdempotent | src/agent-uis/flights/flights-list/components/FlightSegmentCard.tsx:4-6 | only the last offset is removed: "+1+2" gives "+1", which in turn gives "" |
| FlightTimeFormat.FormatTimeExamples | src/agent-uis/flights/flights-list/components/FlightSegmentCard.tsx:4-6 | "23:40" is shown unchanged and "23:40+1" as "23:40" |
| FlightTimeFormat.PadStart2 | src/agent-uis/flights/flights-list/components/BookingModal.tsx:13 | a text of two characters or more is kept; a shorter one is padded on the left with '0' to two characters |
| FlightTimeFormat.FormatDurationFields | src/agent-uis/flights/flights-list/components/BookingModal.tsx:10-14 | for a duration that is not negative the text is the whole hours, "h ", two digits worth the remaining minutes, and "m" |
| FlightTimeFormat.FormatDurationRoundTrip | src/agent-uis/flights/flights-list/components/FlightSegmentCard.tsx:8-12 | the API layer's duration parser reads every such text back as the minutes it came from |
| BookingModal.ValidEmailHasShape | src/agent-uis/flights/flights-list/components/BookingModal.tsx:43-46 | a text the validator accepts has the pattern's shape: a plain local part, '@', a plain name, '.', a plain ending |
| BookingModal.EmailShapeIsValid | src/agent-uis/flights/flights-list/components/BookingModal.tsx:43-46 | a text of the pattern's shape passes the validator |
| BookingModal.ValidateEmailIff | src/agent-uis/flights/flights-list/components/BookingModal.tsx:43-46 | the validator accepts exactly the texts the e-mail pattern describes |
| BookingModal.ValidateNameIff | src/agent-uis/flights/flights-list/components/BookingModal.tsx:49-51 | a name passes exactly when its trimmed text holds a space; the length test adds nothing |
| BookingModal.FieldError | src/agent-uis/flights/flights-list/components/BookingModal.tsx:55-59 | an error shows exactly for a non-empty value that fails its validator |
| BookingModal.PassengerForm.constructor | src/agent-uis/flights/flights-list/components/BookingModal.tsx:39-40 | the form opens with the parent's passenger data and no errors |
| BookingModal.PassengerForm.HandleNameChange | src/agent-uis/flights/flights-list/components/BookingModal.tsx:53-60 | the name takes the value, its error is the one that value calls for, the e-mail side is untouched, and errors that matched their fields still do |
| BookingModal.PassengerForm.HandleEmailChange | src/agent-uis/flights/flights-list/components/BookingModal.tsx:62-69 | the e-mail takes the value, its error is the one that value calls for, the name side is untouched, and errors that matched their fields still do |
| BookingModal.FormValidIff | src/agent-uis/flights/flights-list/components/BookingModal.tsx:71-77 | a valid form has a valid name and e-mail; once the errors match the fields that is also enough, so the two non-empty tests add nothing |
| BookingModal.EditBoth | src/agent-uis/flights/flights-list/components/BookingModal.tsx:53-77 | after typing into both fields the form is valid exactly when both values pass their validators |
| Sorting.SortByProps | src/services/hotels-api.ts:196 | the sort orders by key, is a permutation of its input and keeps the input order among equal keys |
| Sorting.SortArrayBy | src/services/hotels-api.ts:317-323 | sorting an array in place leaves it holding the stable sort of its old contents |
| Sorting.TakeSorted | src/services/flights-api.ts:66 | the first n of the sort are in key order, drawn from the input, and no element left out is cheaper than one kept |

## Left out

- Language-model calls, prompts, `uuidv4`, `Date.now()`, `Math.random()`: parameters of the model, not modelled.
- HTTP and the API client (`src/services/api-client.ts` is not part of this model). `getFlightDetails`, `getBookingDetails` and `testApiConnection` are I/O only and are left out.
- Sleeping: `simulateLatency`, the backoff waits and the 600 ms delay of the hotel tool are not slept. The waits are returned as a sequence and the latency as a real number.
- Console logging and warnings are left out.
- `useDebounce` and `cancelDebounce` are timer-only and are left out, so `debounceDelay` has no effect in `OperationSafeguards.Safeguards.constructor`.
- The `typedUi` collector and the LangGraph reducers are not shown in the source. `ui.push` is an append to a list, and `findToolCall` is name equality.
- `Intl`, `toLocaleString`, floating point and time zones are not modelled. Prices and ratings are integers, and dates are day numbers.
- Because dates are whole days, `Math.ceil` in `calculateNights` is the plain difference.
- `parseInt` is exact on digit runs of any length.
- React rendering, JSX, effects and the other hooks are left out.
- The translation tables (`src/i18n/translations` is not part of this model) are a parameter.
- `t` reads only own properties of the tables. Lookups through inherited properties of JavaScript objects are not modelled.
- `Array.prototype.sort` is a stable insertion sort. Engines are required to sort stably, and only the resulting order is modelled.
- A throttled `safeExecute` and a callback that itself returns `null` both give `Value(None)`, as they do in the source.
- The modal's passenger data lives in its parent. Here it is the form's own two fields.
- The translated name error text is a constructor parameter.
- `FlightSegmentCard.tsx` defines the same `formatTime` and `formatDuration` as `BookingModal.tsx`. The two copies are modelled once, in `FlightTimeFormat`.
- Formatters.FormatDuration: its contract covers durations that are not negative; for negative minutes the body follows JavaScript's remainder, but no property is stated.
- Strings.Lower: folds case only for ASCII and Latin-1 letters (U+00C0 to U+00DE), and Strings.Upper likewise; JavaScript also maps Greek, Cyrillic, Latin Extended and other scripts, and turns 'ß' into "SS". The hotel city filters, the breakfast and cancellation phrases (`HotelPolicyTags.Tags`, the hotel filters) and the resilience gate's name test therefore agree with the source only on texts in those two ranges. Strings are sequences of code points, not UTF-16 units.
- Date texts: only "YYYY-MM-DD" is read as a date (`Day`); every other non-empty text is `Unparsable`. `new Date` also accepts other forms, such as full ISO timestamps, which the model treats as invalid.

## Findings

| source | as written | input that shows it | evidently intended | confidence | as-written member | corrected member |
|---|---|---|---|---|---|---|
| src/i18n/utils/formatters.ts:126 | `formatList` calls `pop()` on the caller's array for three items or more | formatting `["Paris", "Roma", "Lisboa"]` twice in "en-US" gives "Paris, Roma, and Lisboa" and then "Paris and Roma" | a formatter that leaves its argument untouched | medium, not executed | Formatters.FormatListTwice | Formatters.ListText |
