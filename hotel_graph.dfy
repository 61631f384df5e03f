/** The hotels sub-graph of `src/agent/hotels/index.ts`: extraction, then
    the tool node when a search slot is set. Node bodies are a parameter. */
module HotelGraph {
  import opened Wrappers
  import opened AgentMessages
  import opened HotelSchemas
  import HotelExtraction

  datatype Node = Extraction | CallTools

  datatype Target = To(node: Node) | End

  datatype HotelsState = HotelsState(hotelSearchParams: Option<ListHotelsParams>)

  /** The edge from START. */
  const Entry: Node := Extraction

  /** `routeAfterExtraction`. */
  function RouteAfterExtraction(s: HotelsState): (t: Target)
    ensures t == End || t == To(CallTools)
    ensures t == To(CallTools) <==> s.hotelSearchParams.Some?
  {
    if s.hotelSearchParams.None? then End else To(CallTools)
  }

  function Rank(n: Node): nat
  {
    if n == Extraction then 0 else 1
  }

  /** The edge list. */
  function Next(n: Node, s: HotelsState): (t: Target)
    ensures t.To? ==> Rank(t.node) > Rank(n)
    ensures n == CallTools ==> t == End
  {
    match n
    case Extraction => RouteAfterExtraction(s)
    case CallTools => End
  }

  /** The nodes a run visits from `n`; ranks increase along the path. */
  function Walk(n: Node, s: HotelsState, step: (Node, HotelsState) -> HotelsState): (path: seq<Node>)
    decreases 2 - Rank(n)
    ensures 1 <= |path| <= 2 - Rank(n) && path[0] == n
    ensures forall i :: 0 <= i < |path| - 1 ==> Rank(path[i]) < Rank(path[i + 1])
  {
    var s' := step(n, s);
    match Next(n, s')
    case End => [n]
    case To(m) => [n] + Walk(m, s', step)
  }

  function Run(s: HotelsState, step: (Node, HotelsState) -> HotelsState): seq<Node>
  {
    Walk(Entry, s, step)
  }

  /** Every run starts with extraction and visits at most two nodes; the tool
      node runs exactly when extraction left a search slot set. */
  lemma {:induction false} RunShape(s: HotelsState, step: (Node, HotelsState) -> HotelsState)
    ensures var path := Run(s, step);
            1 <= |path| <= 2 && path[0] == Extraction &&
            (|path| == 2 <==> step(Extraction, s).hotelSearchParams.Some?) &&
            (|path| == 2 ==> path[1] == CallTools)
  {
    var s1 := step(Extraction, s);
    if s1.hotelSearchParams.Some? {
      assert Walk(CallTools, s1, step) == [CallTools];
      assert Run(s, step) == [Extraction, CallTools];
    } else {
      assert Run(s, step) == [Extraction];
    }
  }

  /** How the extraction update lands in the state: an absent slot keeps the
      previous value. */
  function Apply<A>(s: HotelsState, u: SlotUpdate<ListHotelsParams, A>): (t: HotelsState)
    ensures u.slot.Some? ==> t.hotelSearchParams == u.slot
    ensures u.slot.None? ==> t == s
  {
    if u.slot.Some? then HotelsState(u.slot) else s
  }

  /** From a state without search parameters, the tools run after
      `extractHotelSearch` exactly when the first tool call carries a truthy
      city. */
  lemma ExtractionDecidesRoute(s: HotelsState, today: int,
                               response: AIResponse<HotelSearchExtraction>, uuids: nat -> string)
    requires s.hotelSearchParams.None?
    requires HotelExtraction.ExtractHotelSearch(today, response, uuids).Ok?
    ensures var u := HotelExtraction.ExtractHotelSearch(today, response, uuids).value;
            RouteAfterExtraction(Apply(s, u)) == To(CallTools) <==>
              FirstToolCall(response).Some? && TruthyString(FirstToolCall(response).value.args.city)
  {
  }
}
