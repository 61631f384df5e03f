/** The supervisor graph of `src/agent/supervisor/index.ts`: START leads to
    the router, the router's choice `state.next` selects one of five
    destinations, and every destination ends the run. */
module SupervisorGraph {

  datatype Destination = Flights | Hotels | TripPlanner | GeneralInput | WriterAgent

  datatype Node = Router | Dest(d: Destination)

  datatype Target = To(node: Node) | End

  /** The state key the routing function reads. */
  datatype SupervisorState = SupervisorState(next: Destination)

  const Entry: Node := Router

  /** `handleRoute`: the router's decision, passed through. */
  function HandleRoute(s: SupervisorState): (d: Destination)
    ensures Next(Router, s) == To(Dest(d))
  {
    s.next
  }

  /** The edge list: the router's conditional edge, and one edge to END
      from each destination. */
  function Next(n: Node, s: SupervisorState): (t: Target)
    ensures n.Dest? <==> t == End
  {
    match n
    case Router => To(Dest(s.next))
    case Dest(_) => End
  }

  /** Every destination is reachable, and nothing but a destination is. */
  lemma RouterDestinations(s: SupervisorState)
    ensures forall d: Destination :: Next(Router, SupervisorState(d)) == To(Dest(d))
    ensures Next(Router, s).To? && Next(Router, s).node.Dest?
  {
  }

  /** One run: the router, then the destination it chose, then END. */
  function Run(s: SupervisorState, step: (Node, SupervisorState) -> SupervisorState): (path: seq<Node>)
    ensures |path| == 2 && path[0] == Entry && path[1] == Dest(step(Router, s).next)
    ensures Next(path[1], step(path[1], step(Router, s))) == End
  {
    var s1 := step(Router, s);
    match Next(Router, s1)
    case To(m) => [Router, m]
  }
}
