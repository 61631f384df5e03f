/** The deterministic part of `callHotelTools`
    (`src/agent/hotels/nodes/tools.ts`): the `list-hotels` call is looked up,
    the search runs on the state's slot, and one UI directive is pushed. The
    model's response, the search service and the clock are parameters. */
module HotelTools {
  import opened Wrappers
  import opened AgentMessages
  import opened HotelSchemas
  import HotelGraph

  const ListHotelsTool := "list-hotels"
  const SearchNotExtracted := "Search parameters were not extracted"

  /** The `hotels-list` directive and its props. */
  datatype Directive = HotelsList(toolCallId: string, hotels: seq<Hotel>, searchParams: ListHotelsParams)

  /** The update `callHotelTools` returns once the model has answered. */
  function HotelToolsUpdate<A>(s: HotelGraph.HotelsState, response: AIResponse<A>,
                               listHotels: ListHotelsParams -> Result<seq<Hotel>>, now: int)
    : ToolsUpdate<A, Directive>
  {
    match FindToolCall(response, ListHotelsTool)
    case None => ToolsUpdate([AI(response)], None, None)
    case Some(call) =>
      match s.hotelSearchParams
      case None => CaughtError(response, Error(SearchNotExtracted))
      case Some(p) =>
        match listHotels(p)
        case Fail(e) => CaughtError(response, e)
        case Ok(hotels) => ToolsUpdate([AI(response)], Some([HotelsList(CallId(call), hotels, p)]), Some(now))
  }

  /** `callHotelTools` after the model call, pushing into a fresh collector. */
  method CallHotelTools<A>(s: HotelGraph.HotelsState, response: AIResponse<A>,
                           listHotels: ListHotelsParams -> Result<seq<Hotel>>, now: int)
    returns (u: ToolsUpdate<A, Directive>)
    ensures u == HotelToolsUpdate(s, response, listHotels, now)
  {
    var call := FindToolCall(response, ListHotelsTool);
    if call.None? {
      return ToolsUpdate([AI(response)], None, None);
    }
    var ui := new UiCollector<Directive>();
    if s.hotelSearchParams.None? {
      return CaughtError(response, Error(SearchNotExtracted));
    }
    var hotels := listHotels(s.hotelSearchParams.value);
    if hotels.Fail? {
      return CaughtError(response, hotels.error);
    }
    var d := HotelsList(CallId(call.value), hotels.value, s.hotelSearchParams.value);
    ui.Push(d);
    assert ui.items == [d];
    u := ToolsUpdate([AI(response)], Some(ui.items), Some(now));
  }

  /** The three outcomes. Without a `list-hotels` call the update is the
      response alone, even when other calls are present, so those calls stay
      unanswered. With it, success yields exactly one directive keyed to the
      call and carrying the slot, and still no tool message; a missing slot or
      a thrown search yields the error message keyed to the first call, with
      neither UI nor timestamp. */
  lemma HotelToolsOutcomes<A>(s: HotelGraph.HotelsState, response: AIResponse<A>,
                              listHotels: ListHotelsParams -> Result<seq<Hotel>>, now: int)
    ensures var u := HotelToolsUpdate(s, response, listHotels, now);
            u.messages[0] == AI(response) &&
            (FindToolCall(response, ListHotelsTool).None? ==> u == ToolsUpdate([AI(response)], None, None)) &&
            (u.ui.Some? <==> u.timestamp == Some(now) &&
                             FindToolCall(response, ListHotelsTool).Some? && s.hotelSearchParams.Some? &&
                             listHotels(s.hotelSearchParams.value).Ok?) &&
            (u.ui.Some? ==>
               u.messages == [AI(response)] &&
               |u.ui.value| == 1 &&
               u.ui.value[0].toolCallId == CallId(FindToolCall(response, ListHotelsTool).value) &&
               Some(u.ui.value[0].searchParams) == s.hotelSearchParams &&
               listHotels(s.hotelSearchParams.value) == Ok(u.ui.value[0].hotels)) &&
            (FindToolCall(response, ListHotelsTool).Some? && s.hotelSearchParams.None? ==>
               u.messages == [AI(response), Tool(FirstCallId(response), FirstCallId(response),
                                                 "Error: " + SearchNotExtracted)])
  {
  }

  /** A response whose calls include `list-hotels` is left with an
      unanswered call on success: no message after the response answers it. */
  lemma SuccessLeavesCallUnanswered<A>(s: HotelGraph.HotelsState, response: AIResponse<A>,
                                       listHotels: ListHotelsParams -> Result<seq<Hotel>>, now: int)
    requires HotelToolsUpdate(s, response, listHotels, now).ui.Some?
    ensures !AnswersInOrder(HotelToolsUpdate(s, response, listHotels, now).messages[1..], Calls(response))
  {
    HotelToolsOutcomes(s, response, listHotels, now);
    assert |Calls(response)| > 0;
  }
}
