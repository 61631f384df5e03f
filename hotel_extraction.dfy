/** The deterministic part of `src/agent/hotels/nodes/extraction.ts`: the
    check-in/check-out inference and what `extractHotelSearch` does with the
    model's response. Today's date and the drawn ids are parameters. */
module HotelExtraction {
  import opened Wrappers
  import opened AgentMessages
  import opened HotelSchemas
  import FlightExtraction

  /** The check-in and check-out dates `calculateDates` returns. */
  datatype StayWindow = StayWindow(checkin: CalendarDate, checkout: CalendarDate)

  const SearchExtracted := "Hotel search parameters extracted successfully"

  /** `calculateDates(checkin, checkout)` on day `today`. */
  function CalculateDates(today: int, checkin: Option<CalendarDate>, checkout: Option<CalendarDate>)
    : (r: Result<StayWindow>)
    ensures !TruthyDate(checkin) && !TruthyDate(checkout) ==>
              r == Ok(StayWindow(Day(today + 28), Day(today + 35)))
    ensures TruthyDate(checkin) && !TruthyDate(checkout) ==>
              (checkin.value.Day? ==> r == Ok(StayWindow(checkin.value, Day(checkin.value.n + 7)))) &&
              (!checkin.value.Day? ==> r == Fail(FlightExtraction.InvalidTimeValue))
    ensures !TruthyDate(checkin) && TruthyDate(checkout) ==>
              (checkout.value.Day? ==> r == Ok(StayWindow(Day(checkout.value.n - 7), checkout.value))) &&
              (!checkout.value.Day? ==> r == Fail(FlightExtraction.InvalidTimeValue))
    ensures TruthyDate(checkin) && TruthyDate(checkout) ==> r == Ok(StayWindow(checkin.value, checkout.value))
  {
    if !TruthyDate(checkin) && !TruthyDate(checkout) then
      Ok(StayWindow(Day(today + 28), Day(today + 35)))
    else if TruthyDate(checkin) && !TruthyDate(checkout) then
      match FlightExtraction.ShiftDate(checkin.value, 7)
      case Ok(out) => Ok(StayWindow(checkin.value, out))
      case Fail(e) => Fail(e)
    else if !TruthyDate(checkin) && TruthyDate(checkout) then
      match FlightExtraction.ShiftDate(checkout.value, -7)
      case Ok(inn) => Ok(StayWindow(inn, checkout.value))
      case Fail(e) => Fail(e)
    else
      Ok(StayWindow(checkin.value, checkout.value))
  }

  /** The hotel and flight copies of `calculateDates` compute the same window
      on every input, check-in playing the outbound date. */
  lemma CalculateDatesAgree(today: int, checkin: Option<CalendarDate>, checkout: Option<CalendarDate>)
    ensures var h := CalculateDates(today, checkin, checkout);
            var f := FlightExtraction.CalculateDates(today, checkin, checkout);
            (h.Ok? <==> f.Ok?) &&
            (h.Fail? ==> h.error == f.error) &&
            (h.Ok? ==> f.value.departDate == h.value.checkin && f.value.returnDate == Some(h.value.checkout))
  {
  }

  /** An inferred stay lasts seven nights, and a supplied date is kept. */
  lemma InferredStayIsOneWeek(today: int, checkin: Option<CalendarDate>, checkout: Option<CalendarDate>)
    ensures var r := CalculateDates(today, checkin, checkout);
            r.Ok? ==>
              TruthyDate(Some(r.value.checkin)) && TruthyDate(Some(r.value.checkout)) &&
              (TruthyDate(checkin) ==> r.value.checkin == checkin.value) &&
              (TruthyDate(checkout) ==> r.value.checkout == checkout.value) &&
              (!(TruthyDate(checkin) && TruthyDate(checkout)) ==>
                 r.value.checkin.Day? && r.value.checkout.Day? && r.value.checkout.n == r.value.checkin.n + 7)
  {
  }

  /** The search slot built from an extraction with a truthy city. */
  function SearchParamsWithDefaults(x: HotelSearchExtraction, w: StayWindow): (p: ListHotelsParams)
    requires x.city.Some?
    ensures p.city == x.city.value && p.checkin == w.checkin && p.checkout == w.checkout
    ensures p.rooms == IntOr(x.rooms, 1)
    ensures p.withBreakfast == Some(x.withBreakfast == Some(true))
    ensures p.refundableOnly == Some(x.refundableOnly == Some(true))
  {
    ListHotelsParams(x.city.value, w.checkin, w.checkout, IntOr(x.rooms, 1),
                     Some(BoolOrFalse(x.withBreakfast)), Some(BoolOrFalse(x.refundableOnly)))
  }

  /** What `extractHotelSearch` returns once the model has answered. */
  function ExtractHotelSearch(today: int, response: AIResponse<HotelSearchExtraction>, uuids: nat -> string)
    : (r: Result<SlotUpdate<ListHotelsParams, HotelSearchExtraction>>)
    ensures FirstToolCall(response).None? || !TruthyString(FirstToolCall(response).value.args.city) ==>
              r == Ok(SlotUpdate(None, [AI(response)]))
    ensures FirstToolCall(response).Some? && TruthyString(FirstToolCall(response).value.args.city) ==>
              var tc := FirstToolCall(response).value;
              match CalculateDates(today, tc.args.checkin, tc.args.checkout)
              case Fail(e) => r == Fail(e)
              case Ok(w) =>
                r == Ok(SlotUpdate(Some(SearchParamsWithDefaults(tc.args, w)),
                                   [AI(response), Tool(InternalId(uuids(0)), CallId(tc), SearchExtracted)]))
    ensures r.Ok? ==> ToolIdsInternal(r.value.messages)
  {
    match FirstToolCall(response)
    case None => Ok(SlotUpdate(None, [AI(response)]))
    case Some(tc) =>
      if !TruthyString(tc.args.city) then Ok(SlotUpdate(None, [AI(response)]))
      else
        match CalculateDates(today, tc.args.checkin, tc.args.checkout)
        case Fail(e) => Fail(e)
        case Ok(w) =>
          Ok(SlotUpdate(Some(SearchParamsWithDefaults(tc.args, w)),
                        [AI(response), Tool(InternalId(uuids(0)), CallId(tc), SearchExtracted)]))
  }

  /** The slot is set exactly when a tool message answers the first call;
      without a slot the update is the response alone. */
  lemma SlotIffToolMessage(today: int, response: AIResponse<HotelSearchExtraction>, uuids: nat -> string)
    ensures var r := ExtractHotelSearch(today, response, uuids);
            r.Ok? ==>
              (r.value.slot.Some? <==> |r.value.messages| == 2) &&
              (r.value.slot.None? ==> r.value.messages == [AI(response)]) &&
              (r.value.slot.Some? ==> r.value.messages[1].Tool? &&
                                      r.value.messages[1].toolCallId == FirstCallId(response))
  {
  }

  /** A slot the hotel extraction sets meets `listHotelsSchema` exactly when
      the model gave no room count, gave 0 (both become 1), or gave a count
      in 1..10; nothing else is checked. */
  lemma SearchSlotSchemaIff(today: int, response: AIResponse<HotelSearchExtraction>, uuids: nat -> string)
    ensures var r := ExtractHotelSearch(today, response, uuids);
            r.Ok? && r.value.slot.Some? ==>
              var n := FirstToolCall(response).value.args.rooms;
              (ValidListHotelsParams(r.value.slot.value) <==> n.None? || n.value == 0 || 1 <= n.value <= 10)
  {
  }

  /** A city is all a hotel search call needs: with every other field absent
      the slot checks in in four weeks for a week, one room, no filters, and
      meets the schema. */
  lemma CitySuffices(today: int, id: string, city: string, uuids: nat -> string)
    requires city != ""
    ensures var x := HotelSearchExtraction(Some(city), None, None, None, None, None);
            var response := AIResponse(None, Some([ToolCall(Some(id), "extract_hotel_search", x)]));
            var r := ExtractHotelSearch(today, response, uuids);
            r.Ok? && r.value.slot ==
              Some(ListHotelsParams(city, Day(today + 28), Day(today + 35), 1, Some(false), Some(false))) &&
            ValidListHotelsParams(r.value.slot.value)
  {
    var x := HotelSearchExtraction(Some(city), None, None, None, None, None);
    var response := AIResponse(None, Some([ToolCall(Some(id), "extract_hotel_search", x)]));
    assert FirstToolCall(response) == Some(ToolCall(Some(id), "extract_hotel_search", x));
  }
}
