/** The flights sub-graph of `src/agent/flights/index.ts`: its nodes, its
    routing functions and its edge list. A node's work is a parameter
    `step`, so the shape of every run can be stated for any node bodies. */
module FlightGraph {
  import opened Wrappers
  import opened AgentMessages
  import opened FlightSchemas
  import FlightClassify
  import FlightExtraction

  datatype Node = Classify | ExtractSearch | ExtractBooking | ExtractCancellation | CallTools

  /** Where a conditional edge leads: a node, or the graph's END. */
  datatype Target = To(node: Node) | End

  /** The state keys the routing functions read. */
  datatype FlightsState = FlightsState(
    intent: Option<FlightClassify.Intent>,
    flightSearchParams: Option<ListFlightsParams>,
    flightBookingParams: Option<FlightBookingExtraction>,
    flightCancellationParams: Option<FlightCancellationExtraction>)

  predicate IsExtractor(n: Node)
  {
    n == ExtractSearch || n == ExtractBooking || n == ExtractCancellation
  }

  /** `routeStart`: the state is not consulted. */
  function RouteStart(s: FlightsState): Node
  {
    Classify
  }

  /** `routeAfterClassifying`: one extractor per intent, search by default. */
  function RouteAfterClassifying(s: FlightsState): (n: Node)
    ensures IsExtractor(n)
    ensures n == ExtractBooking <==> s.intent == Some(FlightClassify.Book)
    ensures n == ExtractCancellation <==> s.intent == Some(FlightClassify.Cancel)
    ensures n == ExtractSearch <==> s.intent.None? || s.intent.value.Search?
  {
    if s.intent == Some(FlightClassify.Book) then ExtractBooking
    else if s.intent == Some(FlightClassify.Cancel) then ExtractCancellation
    else ExtractSearch
  }

  /** The three `routeAfter*Extraction` functions: END when the
      extractor's own slot is unset, the tool node otherwise. */
  function RouteAfterSearchExtraction(s: FlightsState): (t: Target)
    ensures t == End || t == To(CallTools)
    ensures t == End <==> s.flightSearchParams.None?
  {
    if s.flightSearchParams.None? then End else To(CallTools)
  }

  function RouteAfterBookingExtraction(s: FlightsState): (t: Target)
    ensures t == End || t == To(CallTools)
    ensures t == End <==> s.flightBookingParams.None?
  {
    if s.flightBookingParams.None? then End else To(CallTools)
  }

  function RouteAfterCancellationExtraction(s: FlightsState): (t: Target)
    ensures t == End || t == To(CallTools)
    ensures t == End <==> s.flightCancellationParams.None?
  {
    if s.flightCancellationParams.None? then End else To(CallTools)
  }

  /** Each post-extraction route reads its own slot and nothing else. */
  lemma RoutesReadOwnSlot(s: FlightsState, t: FlightsState)
    ensures s.flightSearchParams.Some? == t.flightSearchParams.Some? ==>
              RouteAfterSearchExtraction(s) == RouteAfterSearchExtraction(t)
    ensures s.flightBookingParams.Some? == t.flightBookingParams.Some? ==>
              RouteAfterBookingExtraction(s) == RouteAfterBookingExtraction(t)
    ensures s.flightCancellationParams.Some? == t.flightCancellationParams.Some? ==>
              RouteAfterCancellationExtraction(s) == RouteAfterCancellationExtraction(t)
  {
  }

  /** A topological rank: every edge leads to a node of higher rank. */
  function Rank(n: Node): nat
  {
    match n
    case Classify => 0
    case ExtractSearch => 1
    case ExtractBooking => 1
    case ExtractCancellation => 1
    case CallTools => 2
  }

  /** The edge list: where the graph goes after node `n` has produced state
      `s`. */
  function Next(n: Node, s: FlightsState): (t: Target)
    ensures t.To? ==> Rank(t.node) > Rank(n)
    ensures n == Classify ==> t.To? && IsExtractor(t.node)
    ensures IsExtractor(n) ==> t == End || t == To(CallTools)
    ensures n == CallTools ==> t == End
  {
    match n
    case Classify => To(RouteAfterClassifying(s))
    case ExtractSearch => RouteAfterSearchExtraction(s)
    case ExtractBooking => RouteAfterBookingExtraction(s)
    case ExtractCancellation => RouteAfterCancellationExtraction(s)
    case CallTools => End
  }

  /** The nodes a run visits from `n` in state `s`, each node's work being
      `step`. It terminates because ranks increase along every edge. */
  function Walk(n: Node, s: FlightsState, step: (Node, FlightsState) -> FlightsState): (path: seq<Node>)
    decreases 3 - Rank(n)
    ensures 1 <= |path| <= 3 - Rank(n) && path[0] == n
    ensures forall i :: 0 <= i < |path| - 1 ==> Rank(path[i]) < Rank(path[i + 1])
    ensures Next(path[|path| - 1], WalkState(n, s, step)) == End
  {
    var s' := step(n, s);
    match Next(n, s')
    case End => [n]
    case To(m) => [n] + Walk(m, s', step)
  }

  /** The state a walk ends in. */
  function WalkState(n: Node, s: FlightsState, step: (Node, FlightsState) -> FlightsState): FlightsState
    decreases 3 - Rank(n)
  {
    var s' := step(n, s);
    match Next(n, s')
    case End => s'
    case To(m) => WalkState(m, s', step)
  }

  /** One invocation of the compiled graph. */
  function Run(s: FlightsState, step: (Node, FlightsState) -> FlightsState): seq<Node>
  {
    Walk(RouteStart(s), s, step)
  }

  /** Every run classifies, runs exactly the extractor the classified intent
      selects, and then either stops or calls the tools once: at most three
      nodes, with the tool node reached iff the extractor left its slot set. */
  lemma {:induction false} RunShape(s: FlightsState, step: (Node, FlightsState) -> FlightsState)
    ensures var path := Run(s, step);
            var s1 := step(Classify, s);
            var e := RouteAfterClassifying(s1);
            var s2 := step(e, s1);
            2 <= |path| <= 3 && path[0] == Classify && path[1] == e &&
            (|path| == 3 <==> Next(e, s2) == To(CallTools)) &&
            (|path| == 3 ==> path[2] == CallTools)
  {
    var s1 := step(Classify, s);
    var e := RouteAfterClassifying(s1);
    var s2 := step(e, s1);
    assert Run(s, step) == [Classify] + Walk(e, s1, step);
    match Next(e, s2)
    case End =>
      assert Walk(e, s1, step) == [e];
    case To(m) =>
      assert m == CallTools;
      assert Walk(CallTools, s2, step) == [CallTools];
      assert Walk(e, s1, step) == [e, CallTools];
  }

  /** How an extraction update lands in the state: a slot the update does not
      carry keeps its previous value. */
  function ApplySearch<A>(s: FlightsState, u: SlotUpdate<ListFlightsParams, A>): (t: FlightsState)
    ensures u.slot.Some? ==> t.flightSearchParams == u.slot
    ensures u.slot.None? ==> t == s
    ensures t.flightBookingParams == s.flightBookingParams && t.intent == s.intent
  {
    if u.slot.Some? then s.(flightSearchParams := u.slot) else s
  }

  /** From a state without search parameters, the search route after
      `extractFlightSearch` leads to the tools exactly when the extraction
      found an origin and a destination. A slot already set before the
      extraction is kept, so then the route leads to the tools whatever the
      model answered. */
  lemma SearchExtractionDecidesRoute(s: FlightsState, today: int,
                                     response: AIResponse<FlightSearchExtraction>, uuids: nat -> string)
    requires FlightExtraction.ExtractFlightSearch(today, response, uuids).Ok?
    ensures var u := FlightExtraction.ExtractFlightSearch(today, response, uuids).value;
            var t := RouteAfterSearchExtraction(ApplySearch(s, u));
            (s.flightSearchParams.None? ==>
               (t == To(CallTools) <==>
                  FirstToolCall(response).Some? &&
                  TruthyString(FirstToolCall(response).value.args.origin) &&
                  TruthyString(FirstToolCall(response).value.args.destination))) &&
            (s.flightSearchParams.Some? ==> t == To(CallTools))
  {
    FlightExtraction.SearchSlotSetIff(today, response, uuids);
  }
}
