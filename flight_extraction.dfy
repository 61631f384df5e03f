/** The deterministic part of `src/agent/flights/nodes/extraction.ts`: the
    trip-window inference `calculateDates` and what the three extraction
    nodes do with the model's response. The model call itself is left out:
    its response is a parameter, and so are today's date (a day number) and
    the ids `uuidv4()` would return, in the order they are drawn. */
module FlightExtraction {
  import opened Wrappers
  import opened AgentMessages
  import opened FlightSchemas

  /** The outbound and return dates `calculateDates` returns. */
  datatype TripWindow = TripWindow(departDate: CalendarDate, returnDate: Option<CalendarDate>)

  /** What `toISOString` throws for an invalid date. */
  const InvalidTimeValue := Error("Invalid time value")

  const NoExtractionNeeded := "Tool call processed - no extraction needed"
  const MissingEndpoints := "Origin and destination cities were not specified in the request"
  const SearchExtracted := "Flight search parameters successfully extracted and validated"
  const BookingExtracted := "Flight booking parameters successfully extracted and validated"
  const CancellationExtracted := "Flight cancellation parameters successfully extracted and validated"

  /** `new Date(d)`, moved by `k` days, printed back as "YYYY-MM-DD". A text
      that is not a date gives an invalid date, which `toISOString` rejects. */
  function ShiftDate(d: CalendarDate, k: int): (r: Result<CalendarDate>)
    ensures d.Day? ==> r == Ok(Day(d.n + k))
    ensures !d.Day? ==> r == Fail(InvalidTimeValue)
  {
    if d.Day? then Ok(Day(d.n + k)) else Fail(InvalidTimeValue)
  }

  /** `calculateDates(departDate, returnDate)` on day `today`. */
  function CalculateDates(today: int, depart: Option<CalendarDate>, ret: Option<CalendarDate>)
    : (r: Result<TripWindow>)
    ensures !TruthyDate(depart) && !TruthyDate(ret) ==>
              r == Ok(TripWindow(Day(today + 28), Some(Day(today + 35))))
    ensures TruthyDate(depart) && !TruthyDate(ret) ==>
              (depart.value.Day? ==> r == Ok(TripWindow(depart.value, Some(Day(depart.value.n + 7))))) &&
              (!depart.value.Day? ==> r == Fail(InvalidTimeValue))
    ensures !TruthyDate(depart) && TruthyDate(ret) ==>
              (ret.value.Day? ==> r == Ok(TripWindow(Day(ret.value.n - 7), ret))) &&
              (!ret.value.Day? ==> r == Fail(InvalidTimeValue))
    ensures TruthyDate(depart) && TruthyDate(ret) ==> r == Ok(TripWindow(depart.value, ret))
  {
    if !TruthyDate(depart) && !TruthyDate(ret) then
      Ok(TripWindow(Day(today + 28), Some(Day(today + 35))))
    else if TruthyDate(depart) && !TruthyDate(ret) then
      match ShiftDate(depart.value, 7)
      case Ok(back) => Ok(TripWindow(depart.value, Some(back)))
      case Fail(e) => Fail(e)
    else if !TruthyDate(depart) && TruthyDate(ret) then
      match ShiftDate(ret.value, -7)
      case Ok(out) => Ok(TripWindow(out, ret))
      case Fail(e) => Fail(e)
    else
      Ok(TripWindow(depart.value, ret))
  }

  /** In every branch that returns, both dates are present and truthy, and
      a date the model supplied is returned unchanged. */
  lemma CalculateDatesDefined(today: int, depart: Option<CalendarDate>, ret: Option<CalendarDate>)
    ensures var r := CalculateDates(today, depart, ret);
            r.Ok? ==> TruthyDate(Some(r.value.departDate)) && TruthyDate(r.value.returnDate) &&
                      (TruthyDate(depart) ==> r.value.departDate == depart.value) &&
                      (TruthyDate(ret) ==> r.value.returnDate == ret)
  {
  }

  /** Whenever a date is inferred, the trip lasts exactly one week. */
  lemma InferredWindowIsOneWeek(today: int, depart: Option<CalendarDate>, ret: Option<CalendarDate>)
    requires !(TruthyDate(depart) && TruthyDate(ret))
    ensures var r := CalculateDates(today, depart, ret);
            r.Ok? ==> r.value.departDate.Day? && r.value.returnDate.Some? &&
                      r.value.returnDate.value.Day? &&
                      r.value.returnDate.value.n == r.value.departDate.n + 7
  {
  }

  /** Only a date text that is not a date makes `calculateDates` throw, and
      only when the other date is missing. */
  lemma CalculateDatesFailsOnlyOnBadSingleDate(today: int, depart: Option<CalendarDate>, ret: Option<CalendarDate>)
    ensures CalculateDates(today, depart, ret).Fail? <==>
            (TruthyDate(depart) && !TruthyDate(ret) && depart.value.Unparsable?) ||
            (!TruthyDate(depart) && TruthyDate(ret) && ret.value.Unparsable?)
  {
  }

  /** The search slot built from validated extraction arguments, with the
      defaults for optional fields. */
  function SearchParamsWithDefaults(x: FlightSearchExtraction, w: TripWindow): (p: ListFlightsParams)
    requires x.origin.Some? && x.destination.Some?
    ensures p.origin == x.origin.value && p.destination == x.destination.value
    ensures p.departDate == w.departDate && p.returnDate == w.returnDate
    ensures p.adults == IntOr(x.adults, 1)
    ensures p.directOnly == Some(x.directOnly == Some(true))
    ensures p.withBaggage == Some(x.withBaggage == Some(true))
    ensures p.cheapestOnly == Some(x.cheapestOnly == Some(true))
  {
    ListFlightsParams(
      x.origin.value, x.destination.value, w.departDate, w.returnDate,
      IntOr(x.adults, 1),
      Some(BoolOrFalse(x.directOnly)), Some(BoolOrFalse(x.withBaggage)), Some(BoolOrFalse(x.cheapestOnly)))
  }

  /** What `extractFlightSearch` returns once the model has answered. It
      throws only when `calculateDates` throws. */
  function ExtractFlightSearch(today: int, response: AIResponse<FlightSearchExtraction>, uuids: nat -> string)
    : (r: Result<SlotUpdate<ListFlightsParams, FlightSearchExtraction>>)
    ensures FirstToolCall(response).None? ==> r == Ok(SlotUpdate(None, [AI(response)]))
    ensures FirstToolCall(response).Some? ==>
              var tc := FirstToolCall(response).value;
              var x := tc.args;
              (!TruthyString(x.origin) || !TruthyString(x.destination) ==>
                 r == Ok(SlotUpdate(None, [AI(response), Tool(InternalId(uuids(0)), CallId(tc), MissingEndpoints)]))) &&
              (TruthyString(x.origin) && TruthyString(x.destination) ==>
                 match CalculateDates(today, x.departDate, x.returnDate)
                 case Fail(e) => r == Fail(e)
                 case Ok(w) =>
                   r == Ok(SlotUpdate(Some(SearchParamsWithDefaults(x, w)),
                                      [AI(response), Tool(InternalId(uuids(0)), CallId(tc), SearchExtracted)])))
    ensures r.Ok? ==> ToolIdsInternal(r.value.messages)
  {
    match FirstToolCall(response)
    case None =>
      NoFirstCallIsResponseOnly(response, uuids, NoExtractionNeeded);
      Ok(SlotUpdate(None, NoCallMessages(response, uuids, NoExtractionNeeded)))
    case Some(tc) =>
      var x := tc.args;
      if !TruthyString(x.origin) || !TruthyString(x.destination) then
        Ok(SlotUpdate(None, [AI(response), Tool(InternalId(uuids(0)), CallId(tc), MissingEndpoints)]))
      else
        match CalculateDates(today, x.departDate, x.returnDate)
        case Fail(e) => Fail(e)
        case Ok(w) =>
          Ok(SlotUpdate(Some(SearchParamsWithDefaults(x, w)),
                        [AI(response), Tool(InternalId(uuids(0)), CallId(tc), SearchExtracted)]))
  }

  /** A search slot is set exactly when there is a first call with truthy
      origin and destination and the dates can be computed; it then holds
      at least one adult when the model gave none, zero or a positive count. */
  lemma SearchSlotSetIff(today: int, response: AIResponse<FlightSearchExtraction>, uuids: nat -> string)
    ensures var r := ExtractFlightSearch(today, response, uuids);
            (r.Ok? && r.value.slot.Some?) <==>
              (FirstToolCall(response).Some? &&
               TruthyString(FirstToolCall(response).value.args.origin) &&
               TruthyString(FirstToolCall(response).value.args.destination) &&
               var x := FirstToolCall(response).value.args;
               CalculateDates(today, x.departDate, x.returnDate).Ok?)
    ensures var r := ExtractFlightSearch(today, response, uuids);
            r.Ok? && r.value.slot.Some? ==>
              var x := FirstToolCall(response).value.args;
              (x.adults.None? || x.adults.value >= 0 ==> r.value.slot.value.adults >= 1)
  {
  }

  /** A slot the search extraction sets meets `listFlightsSchema` exactly
      when the model gave no adult count, gave 0 (both become 1), or gave a
      count in 1..9: the defaults fill the other fields but check nothing. */
  lemma SearchSlotSchemaIff(today: int, response: AIResponse<FlightSearchExtraction>, uuids: nat -> string)
    ensures var r := ExtractFlightSearch(today, response, uuids);
            r.Ok? && r.value.slot.Some? ==>
              var a := FirstToolCall(response).value.args.adults;
              (ValidListFlightsParams(r.value.slot.value) <==> a.None? || a.value == 0 || 1 <= a.value <= 9)
  {
  }

  /** Origin and destination are all a search call needs: with every other
      field absent the slot departs in four weeks, returns a week later,
      carries one adult and all flags false, and meets the schema. */
  lemma EndpointsSuffice(today: int, id: string, origin: string, destination: string, uuids: nat -> string)
    requires origin != "" && destination != ""
    ensures var x := FlightSearchExtraction(Some(origin), Some(destination), None, None, None, None, None, None);
            var response := AIResponse(None, Some([ToolCall(Some(id), "extract_flight_search", x)]));
            var r := ExtractFlightSearch(today, response, uuids);
            r.Ok? && r.value.slot ==
              Some(ListFlightsParams(origin, destination, Day(today + 28), Some(Day(today + 35)), 1,
                                     Some(false), Some(false), Some(false))) &&
            ValidListFlightsParams(r.value.slot.value)
  {
    var x := FlightSearchExtraction(Some(origin), Some(destination), None, None, None, None, None, None);
    var response := AIResponse(None, Some([ToolCall(Some(id), "extract_flight_search", x)]));
    assert FirstToolCall(response) == Some(ToolCall(Some(id), "extract_flight_search", x));
  }

  /** The defaults do not enforce the schema's 1..9 range: a model that
      extracts twelve adults yields a search slot that `listFlightsSchema`
      rejects. */
  lemma ExtractedAdultsUnchecked(today: int, id: string, uuids: nat -> string)
    ensures var x := FlightSearchExtraction(Some("CNF"), Some("GRU"), None, None, Some(12), None, None, None);
            var response := AIResponse(None, Some([ToolCall(Some(id), "extract_flight_search", x)]));
            var r := ExtractFlightSearch(today, response, uuids);
            r.Ok? && r.value.slot.Some? && !ValidListFlightsParams(r.value.slot.value)
  {
    var x := FlightSearchExtraction(Some("CNF"), Some("GRU"), None, None, Some(12), None, None, None);
    var response := AIResponse(None, Some([ToolCall(Some(id), "extract_flight_search", x)]));
    assert FirstToolCall(response) == Some(ToolCall(Some(id), "extract_flight_search", x));
  }

  /** What `extractFlightBooking` returns once the model has answered: the
      first call's arguments become the booking slot without any field check,
      answered by one success message. */
  function ExtractFlightBooking(response: AIResponse<FlightBookingExtraction>, uuids: nat -> string)
    : (r: SlotUpdate<FlightBookingExtraction, FlightBookingExtraction>)
    ensures FirstToolCall(response).None? ==> r == SlotUpdate(None, [AI(response)])
    ensures FirstToolCall(response).Some? ==>
              var tc := FirstToolCall(response).value;
              r.slot == Some(tc.args) &&
              r.messages == [AI(response), Tool(InternalId(uuids(0)), CallId(tc), BookingExtracted)]
    ensures ToolIdsInternal(r.messages)
  {
    match FirstToolCall(response)
    case None =>
      NoFirstCallIsResponseOnly(response, uuids, NoExtractionNeeded);
      SlotUpdate(None, NoCallMessages(response, uuids, NoExtractionNeeded))
    case Some(tc) =>
      SlotUpdate(Some(tc.args), [AI(response), Tool(InternalId(uuids(0)), CallId(tc), BookingExtracted)])
  }

  /** What `extractFlightCancellation` returns once the model has answered. */
  function ExtractFlightCancellation(response: AIResponse<FlightCancellationExtraction>, uuids: nat -> string)
    : (r: SlotUpdate<FlightCancellationExtraction, FlightCancellationExtraction>)
    ensures FirstToolCall(response).None? ==> r == SlotUpdate(None, [AI(response)])
    ensures FirstToolCall(response).Some? ==>
              var tc := FirstToolCall(response).value;
              r.slot == Some(tc.args) &&
              r.messages == [AI(response), Tool(InternalId(uuids(0)), CallId(tc), CancellationExtracted)]
    ensures ToolIdsInternal(r.messages)
  {
    match FirstToolCall(response)
    case None =>
      NoFirstCallIsResponseOnly(response, uuids, NoExtractionNeeded);
      SlotUpdate(None, NoCallMessages(response, uuids, NoExtractionNeeded))
    case Some(tc) =>
      SlotUpdate(Some(tc.args), [AI(response), Tool(InternalId(uuids(0)), CallId(tc), CancellationExtracted)])
  }
}
