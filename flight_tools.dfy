/** The deterministic part of `callFlightTools`
    (`src/agent/flights/nodes/tools.ts`): which calls of the model's response
    are recognised, the UI directives pushed for them, the tool-result
    messages, and the conversion of a thrown error into one message. The
    model's response, the three flight services, the drawn message ids and
    the clock are parameters. */
module FlightTools {
  import opened Wrappers
  import opened Strings
  import opened AgentMessages
  import opened FlightSchemas
  import FlightGraph
  import FlightExtraction

  const ListFlightsTool := "list-flights"
  const BookFlightTool := "book-flight"
  const CancelFlightTool := "cancel-flight"

  const NoMatchingTool := "Tool call processed - no matching flight tool"
  const SearchNotExtracted := "Flight search parameters were not extracted"
  const BookingNotExtracted := "Flight booking parameters were not extracted"
  const CancellationNotExtracted := "Flight cancellation parameters were not extracted"

  /** A UI directive with its props; the name it is pushed under is
      `DirectiveName`. */
  datatype Directive =
    | FlightsList(toolCallId: string, flights: seq<FlightItinerary>, searchParams: ListFlightsParams)
    | BookingConfirmation(toolCallId: string, booking: BookFlightResponse)
    | CancellationConfirmation(toolCallId: string, cancellation: CancelFlightResponse)

  function DirectiveName(d: Directive): string
  {
    match d
    case FlightsList(_, _, _) => "flights-list"
    case BookingConfirmation(_, _) => "flight-booking-confirmation"
    case CancellationConfirmation(_, _) => "flight-cancellation-confirmation"
  }

  /** The tool whose call a directive answers. */
  function DirectiveTool(d: Directive): string
  {
    match d
    case FlightsList(_, _, _) => ListFlightsTool
    case BookingConfirmation(_, _) => BookFlightTool
    case CancellationConfirmation(_, _) => CancelFlightTool
  }

  /** Processing order: list, then book, then cancel. */
  function DirectiveRank(d: Directive): nat
  {
    match d
    case FlightsList(_, _, _) => 0
    case BookingConfirmation(_, _) => 1
    case CancellationConfirmation(_, _) => 2
  }

  /** The flight services as the node sees them: each either returns or
      throws. */
  datatype FlightServices = FlightServices(
    list: ListFlightsParams -> Result<seq<FlightItinerary>>,
    book: BookFlightParams -> Result<BookFlightResponse>,
    cancel: CancelFlightParams -> Result<CancelFlightResponse>)

  /** The booking request built from the booking slot. */
  function BookingRequest(x: FlightBookingExtraction): (p: BookFlightParams)
    ensures p.itineraryId == x.itineraryId
    ensures p.passenger.fullName == x.fullName && p.passenger.email == x.email
  {
    BookFlightParams(x.itineraryId, Passenger(x.fullName, x.email))
  }

  /** The booking extraction stores the model's arguments whatever their
      e-mail text, so the request the tool node builds from that slot meets
      `bookFlightSchema` exactly when the e-mail passes Zod's check. */
  lemma BookingSlotSkipsEmailCheck(response: AIResponse<FlightBookingExtraction>, uuids: nat -> string,
                                   isEmail: string -> bool)
    requires FirstToolCall(response).Some?
    ensures var slot := FlightExtraction.ExtractFlightBooking(response, uuids).slot;
            var x := FirstToolCall(response).value.args;
            slot == Some(x) &&
            (ValidBookFlightParams(BookingRequest(slot.value), isEmail) <==> isEmail(x.email))
  {
  }

  /** The directives pushed before the try block ends, and the error that
      ended it, if any. */
  datatype Outcome = Outcome(pushed: seq<Directive>, error: Option<Error>)

  function ListDirective(s: FlightGraph.FlightsState, callId: string, svc: FlightServices): Result<Directive>
  {
    match s.flightSearchParams
    case None => Fail(Error(SearchNotExtracted))
    case Some(p) =>
      match svc.list(p)
      case Ok(flights) => Ok(FlightsList(callId, flights, p))
      case Fail(e) => Fail(e)
  }

  function BookDirective(s: FlightGraph.FlightsState, callId: string, svc: FlightServices): Result<Directive>
  {
    match s.flightBookingParams
    case None => Fail(Error(BookingNotExtracted))
    case Some(x) =>
      match svc.book(BookingRequest(x))
      case Ok(booking) => Ok(BookingConfirmation(callId, booking))
      case Fail(e) => Fail(e)
  }

  function CancelDirective(s: FlightGraph.FlightsState, callId: string, svc: FlightServices): Result<Directive>
  {
    match s.flightCancellationParams
    case None => Fail(Error(CancellationNotExtracted))
    case Some(x) =>
      match svc.cancel(CancelFlightParams(x.pnr))
      case Ok(c) => Ok(CancellationConfirmation(callId, c))
      case Fail(e) => Fail(e)
  }

  /** One guarded stage of the try block: skipped after an error or without a
      call; otherwise it pushes its directive or records the error. */
  function Stage<A>(o: Outcome, call: Option<ToolCall<A>>, d: string -> Result<Directive>): Outcome
  {
    if o.error.Some? || call.None? then o
    else
      match d(CallId(call.value))
      case Ok(x) => Outcome(o.pushed + [x], None)
      case Fail(e) => Outcome(o.pushed, Some(e))
  }

  /** The try block's pushes, in order. */
  function Pushed<A>(s: FlightGraph.FlightsState, response: AIResponse<A>, svc: FlightServices): Outcome
  {
    var o1 := Stage(Outcome([], None), FindToolCall(response, ListFlightsTool), id => ListDirective(s, id, svc));
    var o2 := Stage(o1, FindToolCall(response, BookFlightTool), id => BookDirective(s, id, svc));
    Stage(o2, FindToolCall(response, CancelFlightTool), id => CancelDirective(s, id, svc))
  }

  predicate Recognised<A>(response: AIResponse<A>)
  {
    FindToolCall(response, ListFlightsTool).Some? ||
    FindToolCall(response, BookFlightTool).Some? ||
    FindToolCall(response, CancelFlightTool).Some?
  }

  function SuccessContent<A>(tc: ToolCall<A>): string
  {
    "Tool " + tc.name + " executed successfully"
  }

  /** The update `callFlightTools` returns once the model has answered. */
  function FlightToolsUpdate<A>(s: FlightGraph.FlightsState, response: AIResponse<A>, svc: FlightServices,
                                ids: nat -> string, now: int): ToolsUpdate<A, Directive>
  {
    if !Recognised(response) then
      ToolsUpdate(NoCallMessages(response, ids, NoMatchingTool), None, None)
    else
      var o := Pushed(s, response, svc);
      if o.error.Some? then CaughtError(response, o.error.value)
      else
        ToolsUpdate([AI(response)] + ToolMessages(Calls(response), (k: nat) => InternalId(ids(k)), SuccessContent),
                    Some(o.pushed), Some(now))
  }

  /** `callFlightTools` after the model call, pushing into a fresh collector
      step by step. */
  method CallFlightTools<A>(s: FlightGraph.FlightsState, response: AIResponse<A>, svc: FlightServices,
                            ids: nat -> string, now: int) returns (u: ToolsUpdate<A, Directive>)
    ensures u == FlightToolsUpdate(s, response, svc, ids, now)
  {
    var listCall := FindToolCall(response, ListFlightsTool);
    var bookCall := FindToolCall(response, BookFlightTool);
    var cancelCall := FindToolCall(response, CancelFlightTool);
    if listCall.None? && bookCall.None? && cancelCall.None? {
      return ToolsUpdate(NoCallMessages(response, ids, NoMatchingTool), None, None);
    }
    var ui := new UiCollector<Directive>();
    var error: Option<Error> := None;
    if listCall.Some? {
      var d := ListDirective(s, CallId(listCall.value), svc);
      if d.Ok? { ui.Push(d.value); } else { error := Some(d.error); }
    }
    ghost var o1 := Outcome(ui.items, error);
    assert o1 == Stage(Outcome([], None), listCall, id => ListDirective(s, id, svc));
    if error.None? && bookCall.Some? {
      var d := BookDirective(s, CallId(bookCall.value), svc);
      if d.Ok? { ui.Push(d.value); } else { error := Some(d.error); }
    }
    ghost var o2 := Outcome(ui.items, error);
    assert o2 == Stage(o1, bookCall, id => BookDirective(s, id, svc));
    if error.None? && cancelCall.Some? {
      var d := CancelDirective(s, CallId(cancelCall.value), svc);
      if d.Ok? { ui.Push(d.value); } else { error := Some(d.error); }
    }
    assert Outcome(ui.items, error) == Pushed(s, response, svc);
    if error.Some? {
      return CaughtError(response, error.value);
    }
    var toolMessages := ToolMessages(Calls(response), (k: nat) => InternalId(ids(k)), SuccessContent);
    u := ToolsUpdate([AI(response)] + toolMessages, Some(ui.items), Some(now));
  }

  /** Without a recognised call the update is the response and one
      placeholder per tool call, in order, keyed to that call's id; there is
      no UI and no timestamp. */
  lemma NoRecognisedCall<A>(s: FlightGraph.FlightsState, response: AIResponse<A>, svc: FlightServices,
                            ids: nat -> string, now: int)
    requires !Recognised(response)
    ensures var u := FlightToolsUpdate(s, response, svc, ids, now);
            u.ui.None? && u.timestamp.None? && u.messages[0] == AI(response) &&
            AnswersInOrder(u.messages[1..], Calls(response)) &&
            forall k :: 1 <= k < |u.messages| ==>
              u.messages[k].content == NoMatchingTool && StartsWith(u.messages[k].id, DoNotRenderIdPrefix)
  {
    NoCallMessagesAnswer(response, ids, NoMatchingTool);
  }

  /** A directive answers the first call of its tool, and carries what the
      service returned for the request built from the state's slot. */
  predicate DirectiveFits<A>(s: FlightGraph.FlightsState, response: AIResponse<A>, svc: FlightServices, d: Directive)
  {
    FindToolCall(response, DirectiveTool(d)).Some? &&
    d.toolCallId == CallId(FindToolCall(response, DirectiveTool(d)).value) &&
    match d
    case FlightsList(_, flights, p) =>
      s.flightSearchParams == Some(p) && svc.list(p) == Ok(flights)
    case BookingConfirmation(_, booking) =>
      s.flightBookingParams.Some? && svc.book(BookingRequest(s.flightBookingParams.value)) == Ok(booking)
    case CancellationConfirmation(_, c) =>
      s.flightCancellationParams.Some? && svc.cancel(CancelFlightParams(s.flightCancellationParams.value.pnr)) == Ok(c)
  }

  /** On success every tool call, recognised or not, is answered in order by
      an "executed successfully" message with an internal id, and the
      timestamp is set. */
  lemma FlightToolsSuccessMessages<A>(s: FlightGraph.FlightsState, response: AIResponse<A>, svc: FlightServices,
                                      ids: nat -> string, now: int)
    requires Recognised(response) && Pushed(s, response, svc).error.None?
    ensures var u := FlightToolsUpdate(s, response, svc, ids, now);
            u.ui == Some(Pushed(s, response, svc).pushed) && u.timestamp == Some(now) &&
            u.messages[0] == AI(response) && AnswersInOrder(u.messages[1..], Calls(response)) &&
            (forall k :: 1 <= k < |u.messages| ==>
               u.messages[k].content == SuccessContent(Calls(response)[k - 1]) &&
               StartsWith(u.messages[k].id, DoNotRenderIdPrefix))
  {
    var tail := ToolMessages(Calls(response), (k: nat) => InternalId(ids(k)), SuccessContent);
    var ms := FlightToolsUpdate(s, response, svc, ids, now).messages;
    assert ms == [AI(response)] + tail;
    assert ms[1..] == tail;
    ToolMessagesAnswer(Calls(response), (k: nat) => InternalId(ids(k)), SuccessContent);
    forall k | 1 <= k < |ms|
      ensures ms[k].content == SuccessContent(Calls(response)[k - 1])
      ensures StartsWith(ms[k].id, DoNotRenderIdPrefix)
    {
      assert ms[k] == tail[k - 1];
      assert ms[k].id == InternalId(ids(k - 1));
    }
  }

  /** On success there is one directive per recognised call, in
      list-book-cancel order, each answering its call with what the service
      returned for the request built from the state's slot. */
  lemma FlightToolsSuccessDirectives<A>(s: FlightGraph.FlightsState, response: AIResponse<A>, svc: FlightServices)
    requires Pushed(s, response, svc).error.None?
    ensures var ds := Pushed(s, response, svc).pushed;
            forall i, j :: 0 <= i < j < |ds| ==> DirectiveRank(ds[i]) < DirectiveRank(ds[j])
    ensures var ds := Pushed(s, response, svc).pushed;
            forall i :: 0 <= i < |ds| ==> DirectiveFits(s, response, svc, ds[i])
    ensures var ds := Pushed(s, response, svc).pushed;
            FindToolCall(response, ListFlightsTool).Some? <==> exists i :: 0 <= i < |ds| && ds[i].FlightsList?
    ensures var ds := Pushed(s, response, svc).pushed;
            FindToolCall(response, BookFlightTool).Some? <==> exists i :: 0 <= i < |ds| && ds[i].BookingConfirmation?
    ensures var ds := Pushed(s, response, svc).pushed;
            FindToolCall(response, CancelFlightTool).Some? <==> exists i :: 0 <= i < |ds| && ds[i].CancellationConfirmation?
  {
    var l := FindToolCall(response, ListFlightsTool);
    var b := FindToolCall(response, BookFlightTool);
    var c := FindToolCall(response, CancelFlightTool);
    var pl := Part(l, id => ListDirective(s, id, svc));
    var pb := Part(b, id => BookDirective(s, id, svc));
    var pc := Part(c, id => CancelDirective(s, id, svc));
    PushedParts(s, response, svc);
    ThreeParts(pl, pb, pc, x => DirectiveFits(s, response, svc, x));
  }

  /** Without an error, the pushed directives are the three stages' parts,
      each present exactly when its tool was called, of its own kind and
      fitting its call. */
  lemma PushedParts<A>(s: FlightGraph.FlightsState, response: AIResponse<A>, svc: FlightServices)
    requires Pushed(s, response, svc).error.None?
    ensures var l := FindToolCall(response, ListFlightsTool);
            var b := FindToolCall(response, BookFlightTool);
            var c := FindToolCall(response, CancelFlightTool);
            var pl := Part(l, id => ListDirective(s, id, svc));
            var pb := Part(b, id => BookDirective(s, id, svc));
            var pc := Part(c, id => CancelDirective(s, id, svc));
            Pushed(s, response, svc).pushed == pl + pb + pc &&
            |pl| == (if l.Some? then 1 else 0) && (forall x :: x in pl ==> x.FlightsList? && DirectiveFits(s, response, svc, x)) &&
            |pb| == (if b.Some? then 1 else 0) && (forall x :: x in pb ==> x.BookingConfirmation? && DirectiveFits(s, response, svc, x)) &&
            |pc| == (if c.Some? then 1 else 0) && (forall x :: x in pc ==> x.CancellationConfirmation? && DirectiveFits(s, response, svc, x))
  {
    var l := FindToolCall(response, ListFlightsTool);
    var b := FindToolCall(response, BookFlightTool);
    var c := FindToolCall(response, CancelFlightTool);
    var pl := Part(l, id => ListDirective(s, id, svc));
    var pb := Part(b, id => BookDirective(s, id, svc));
    var pc := Part(c, id => CancelDirective(s, id, svc));
    assert Pushed(s, response, svc).pushed == pl + pb + pc;
  }

  /** The order and kind facts about a concatenation of at most one list,
      one booking and one cancellation directive. */
  lemma ThreeParts(pl: seq<Directive>, pb: seq<Directive>, pc: seq<Directive>, fits: Directive -> bool)
    requires |pl| <= 1 && |pb| <= 1 && |pc| <= 1
    requires forall x :: x in pl ==> x.FlightsList? && fits(x)
    requires forall x :: x in pb ==> x.BookingConfirmation? && fits(x)
    requires forall x :: x in pc ==> x.CancellationConfirmation? && fits(x)
    ensures var ds := pl + pb + pc;
            (forall i, j :: 0 <= i < j < |ds| ==> DirectiveRank(ds[i]) < DirectiveRank(ds[j])) &&
            (forall i :: 0 <= i < |ds| ==> fits(ds[i])) &&
            (|pl| == 1 <==> exists i :: 0 <= i < |ds| && ds[i].FlightsList?) &&
            (|pb| == 1 <==> exists i :: 0 <= i < |ds| && ds[i].BookingConfirmation?) &&
            (|pc| == 1 <==> exists i :: 0 <= i < |ds| && ds[i].CancellationConfirmation?)
  {
    var ds := pl + pb + pc;
    forall i | 0 <= i < |ds|
      ensures ds[i] in pl ==> i < |pl|
      ensures ds[i] in pl || ds[i] in pb || ds[i] in pc
    {
      if i < |pl| { assert ds[i] == pl[i]; }
      else if i < |pl| + |pb| { assert ds[i] == pb[i - |pl|]; }
      else { assert ds[i] == pc[i - |pl| - |pb|]; }
    }
    if |pl| == 1 { assert ds[0] == pl[0]; }
    if |pb| == 1 { assert ds[|pl|] == pb[0]; }
    if |pc| == 1 { assert ds[|pl| + |pb|] == pc[0]; }
  }

  /** What one stage that succeeds contributes. */
  function Part<A>(call: Option<ToolCall<A>>, d: string -> Result<Directive>): seq<Directive>
  {
    if call.Some? && d(CallId(call.value)).Ok? then [d(CallId(call.value)).value] else []
  }

  /** When the try block throws, the update is the response and a single
      error message keyed to the first call; no UI and no timestamp. */
  lemma FlightToolsFailure<A>(s: FlightGraph.FlightsState, response: AIResponse<A>, svc: FlightServices,
                              ids: nat -> string, now: int)
    requires Recognised(response) && Pushed(s, response, svc).error.Some?
    ensures var u := FlightToolsUpdate(s, response, svc, ids, now);
            var e := Pushed(s, response, svc).error.value;
            u.ui.None? && u.timestamp.None? &&
            u.messages == [AI(response), Tool(FirstCallId(response), FirstCallId(response), "Error: " + MessageOr(e, "Unknown error"))]
  {
  }

  /** A recognised call whose slot is unset throws its own message, unless
      an earlier stage threw first. */
  lemma MissingSlotThrows<A>(s: FlightGraph.FlightsState, response: AIResponse<A>, svc: FlightServices)
    ensures FindToolCall(response, ListFlightsTool).Some? && s.flightSearchParams.None? ==>
              Pushed(s, response, svc).error == Some(Error(SearchNotExtracted))
    ensures FindToolCall(response, ListFlightsTool).None? &&
            FindToolCall(response, BookFlightTool).Some? && s.flightBookingParams.None? ==>
              Pushed(s, response, svc).error == Some(Error(BookingNotExtracted))
    ensures FindToolCall(response, ListFlightsTool).None? && FindToolCall(response, BookFlightTool).None? &&
            FindToolCall(response, CancelFlightTool).Some? && s.flightCancellationParams.None? ==>
              Pushed(s, response, svc).error == Some(Error(CancellationNotExtracted))
  {
  }
}
