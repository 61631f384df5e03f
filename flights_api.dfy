/** The flight service of `src/services/flights-api.ts` over the flight
    backend. The backend's answers are parameters: the flight list of a
    search, and the outcome of the k-th booking or cancellation request.
    `Date().toISOString()` readings are parameters too. */
module FlightsApi {
  import opened Wrappers
  import opened Sorting
  import opened Sequences
  import opened FlightSchemas
  import opened ApiTypes
  import opened Resilience

  // ----- listFlights -----

  /** `ApiFlightSearchParams` as `listFlights` fills it. */
  datatype ApiFlightSearchParams = ApiFlightSearchParams(
    origin: string, destination: string, departureDate: CalendarDate, page: int, limit: int)

  /** The query sent to `/api/flights`: the route and date, first page of
      up to 50 results. */
  function SearchRequest(p: ListFlightsParams): (q: ApiFlightSearchParams)
    ensures q.origin == p.origin && q.destination == p.destination && q.departureDate == p.departDate
    ensures q.page == 1 && q.limit == 50
  {
    ApiFlightSearchParams(p.origin, p.destination, p.departDate, 1, 50)
  }

  const SearchFailed := "Erro ao buscar voos"

  function TotalPrice(f: FlightItinerary): int
  {
    f.totalPrice
  }

  function Converted(apiFlights: seq<ApiFlight>, localTime: string -> string): seq<FlightItinerary>
  {
    Map(apiFlights, (f: ApiFlight) => ConvertApiFlightToItinerary(f, localTime))
  }

  /** The converted flights after the direct-only and baggage filters. */
  function Filtered(apiFlights: seq<ApiFlight>, p: ListFlightsParams, localTime: string -> string)
    : seq<FlightItinerary>
  {
    var all := Converted(apiFlights, localTime);
    var direct := if BoolOrFalse(p.directOnly) then Filter(all, (f: FlightItinerary) => f.stops == 0) else all;
    if BoolOrFalse(p.withBaggage) then Filter(direct, (f: FlightItinerary) => f.baggageIncluded) else direct
  }

  /** What `listFlights` returns: the filtered flights, or the two cheapest
      of them when `cheapestOnly` is set. The catch block is modelled for a
      failed request only, whose error it rethrows with its message: the
      conversion and the filters cannot throw here, since the response is
      a well-formed list of flights. */
  function ListFlightsResult(p: ListFlightsParams, response: Result<seq<ApiFlight>>,
                             localTime: string -> string): Result<seq<FlightItinerary>>
  {
    match response
    case Fail(e) => Fail(Error(MessageOr(e, SearchFailed)))
    case Ok(apiFlights) =>
      var flights := Filtered(apiFlights, p, localTime);
      if BoolOrFalse(p.cheapestOnly) then Ok(Take(SortBy(flights, TotalPrice), 2)) else Ok(flights)
  }

  /** The body of `listFlights`: the filters rebuild the list, and the
      cheapest-only option sorts it in place before slicing. */
  method ListFlights(p: ListFlightsParams, response: Result<seq<ApiFlight>>, localTime: string -> string)
    returns (r: Result<seq<FlightItinerary>>)
    ensures r == ListFlightsResult(p, response, localTime)
  {
    if response.Fail? {
      return Fail(Error(MessageOr(response.error, SearchFailed)));
    }
    var flights := Filtered(response.value, p, localTime);
    if BoolOrFalse(p.cheapestOnly) {
      var a := new FlightItinerary[|flights|](i requires 0 <= i < |flights| => flights[i]);
      assert a[..] == flights;
      SortArrayBy(a, TotalPrice);
      flights := Take(a[..], 2);
    }
    r := Ok(flights);
  }

  /** The filters keep exactly the converted flights that meet them. */
  lemma {:induction false} FilteredMembers(apiFlights: seq<ApiFlight>, p: ListFlightsParams, localTime: string -> string)
    ensures forall f :: f in Filtered(apiFlights, p, localTime) ==>
              f in Converted(apiFlights, localTime) &&
              (BoolOrFalse(p.directOnly) ==> f.stops == 0) &&
              (BoolOrFalse(p.withBaggage) ==> f.baggageIncluded)
    ensures forall f :: f in Converted(apiFlights, localTime) &&
                        (BoolOrFalse(p.directOnly) ==> f.stops == 0) &&
                        (BoolOrFalse(p.withBaggage) ==> f.baggageIncluded) ==>
              f in Filtered(apiFlights, p, localTime)
    ensures IsSubsequence(Filtered(apiFlights, p, localTime), Converted(apiFlights, localTime))
  {
    var all := Converted(apiFlights, localTime);
    var direct := if BoolOrFalse(p.directOnly) then Filter(all, (f: FlightItinerary) => f.stops == 0) else all;
    FilterMembers(all, (f: FlightItinerary) => f.stops == 0);
    FilterMembers(direct, (f: FlightItinerary) => f.baggageIncluded);
    FilterSubsequence(all, (f: FlightItinerary) => f.stops == 0);
    FilterSubsequence(direct, (f: FlightItinerary) => f.baggageIncluded);
    SubsequenceRefl(all);
    SubsequenceRefl(direct);
    SubsequenceTrans(Filtered(apiFlights, p, localTime), direct, all);
  }

  /** Without `cheapestOnly` the result keeps the backend's order: it is a
      subsequence of the converted flights, holding every one that meets
      the filters. */
  lemma ListWithoutCheapest(p: ListFlightsParams, apiFlights: seq<ApiFlight>, localTime: string -> string)
    requires !BoolOrFalse(p.cheapestOnly)
    ensures var r := ListFlightsResult(p, Ok(apiFlights), localTime);
            r.Ok? && r.value == Filtered(apiFlights, p, localTime) &&
            IsSubsequence(r.value, Converted(apiFlights, localTime))
  {
    FilteredMembers(apiFlights, p, localTime);
  }

  /** With `cheapestOnly`: at most two flights, cheapest first, each one
      meeting the filters, as many as there are (up to two), and no flight
      left out is cheaper than one kept. */
  lemma CheapestTwo(p: ListFlightsParams, apiFlights: seq<ApiFlight>, localTime: string -> string)
    requires BoolOrFalse(p.cheapestOnly)
    ensures var r := ListFlightsResult(p, Ok(apiFlights), localTime);
            var fs := Filtered(apiFlights, p, localTime);
            r.Ok? && |r.value| == (if |fs| < 2 then |fs| else 2) &&
            (forall i, j :: 0 <= i < j < |r.value| ==> r.value[i].totalPrice <= r.value[j].totalPrice) &&
            (forall x :: x in r.value ==> x in fs) &&
            (forall x, y :: x in r.value && y in fs && y !in r.value ==> x.totalPrice <= y.totalPrice)
  {
    var fs := Filtered(apiFlights, p, localTime);
    var r := Take(SortBy(fs, TotalPrice), 2);
    assert ListFlightsResult(p, Ok(apiFlights), localTime) == Ok(r);
    TakeSorted(fs, TotalPrice, 2);
    assert forall x :: TotalPrice(x) == x.totalPrice;
  }

  // ----- _bookFlightCore and bookFlight -----

  /** The body the backend returns for a booking: an untyped object that
      may carry booking fields itself, a `booking` object, a `data` object
      and a `success` flag. */
  datatype ApiBody = ApiBody(fields: ApiBookingData, booking: Option<ApiBody>, data: Option<ApiBody>, success: bool)

  /** The POST route for booking an itinerary. */
  function BookingPath(p: BookFlightParams): (path: string)
    ensures path == "/api/flights/" + p.itineraryId + "/book"
  {
    "/api/flights/" + p.itineraryId + "/book"
  }

  /** Which object holds the booking: `booking`, else `data.booking`, else
      `data` when `success` is set, else the body itself. */
  function BookingData(b: ApiBody): (d: ApiBody)
    ensures b.booking.Some? ==> d == b.booking.value
    ensures b.booking.None? && b.data.Some? && b.data.value.booking.Some? ==> d == b.data.value.booking.value
    ensures b.booking.None? && b.data.Some? && b.data.value.booking.None? && b.success ==> d == b.data.value
    ensures b.booking.None? && (b.data.None? || (b.data.value.booking.None? && !b.success)) ==> d == b
  {
    if b.booking.Some? then b.booking.value
    else if b.data.Some? && b.data.value.booking.Some? then b.data.value.booking.value
    else if b.success && b.data.Some? then b.data.value
    else b
  }

  const EmptyResponse := Error("Resposta da API está vazia")

  /** `_bookFlightCore` after the request: an empty body throws; otherwise
      the chosen booking object is converted. */
  function BookFlightCore(response: Option<ApiBody>, nowIso: string): (r: Result<BookFlightResponse>)
    ensures response.None? ==> r == Fail(EmptyResponse)
    ensures response.Some? ==> r == ConvertApiBookingToResponse(Some(BookingData(response.value).fields), nowIso)
    ensures r.Ok? ==> ValidBookFlightResponse(r.value)
  {
    match response
    case None => Fail(EmptyResponse)
    case Some(b) => ConvertApiBookingToResponse(Some(BookingData(b).fields), nowIso)
  }

  /** The three envelopes the code recognises, around a plain booking
      object `x`, convert exactly as `x` does. */
  lemma EnvelopesAgree(x: ApiBody, outer: ApiBookingData, inner: ApiBookingData, nowIso: string)
    requires x.booking.None? && x.data.None?
    ensures BookFlightCore(Some(ApiBody(outer, Some(x), None, false)), nowIso) == BookFlightCore(Some(x), nowIso)
    ensures BookFlightCore(Some(ApiBody(outer, None, Some(ApiBody(inner, Some(x), None, false)), false)), nowIso)
            == BookFlightCore(Some(x), nowIso)
    ensures BookFlightCore(Some(ApiBody(outer, None, Some(x), true)), nowIso) == BookFlightCore(Some(x), nowIso)
  {
  }

  /** Without `success`, a `data` object with no `booking` inside is
      ignored and the outer object is converted. */
  lemma DataIgnoredWithoutSuccess(outer: ApiBookingData, x: ApiBody, nowIso: string)
    requires x.booking.None?
    ensures BookFlightCore(Some(ApiBody(outer, None, Some(x), false)), nowIso)
            == ConvertApiBookingToResponse(Some(outer), nowIso)
  {
  }

  /** Booking and cancellation both retry with these options. */
  const FlightRetry := RetryOptions(Some(3), Some(1000), Some(5000), None)

  /** Booking attempt `k`: the outcome `posts(k)` of the k-th POST, then
      `_bookFlightCore` at time `nowIso(k)`. */
  function BookingAttempt(posts: nat -> Result<Option<ApiBody>>, nowIso: nat -> string): nat -> Result<BookFlightResponse>
  {
    (k: nat) => match posts(k)
                case Fail(e) => Fail(e)
                case Ok(body) => BookFlightCore(body, nowIso(k))
  }

  /** `bookFlight` under the default resilience configuration: "bookFlight"
      is not gated, so the first successful attempt's booking is returned
      after at most three attempts, or the third failure. */
  method BookFlight(posts: nat -> Result<Option<ApiBody>>, nowIso: nat -> string, draws: nat -> Draws)
    returns (r: Result<BookFlightResponse>, calls: nat, waits: seq<int>)
    ensures calls <= 3
    ensures var op := BookingAttempt(posts, nowIso);
            match FirstOkFrom(op, 0, 3)
            case Some(k) => calls == k + 1 && r == op(k)
            case None => calls == 3 && r == op(2)
    ensures waits == Schedule(ResolveRetry(FlightRetry), Max0(calls - 1))
    ensures r.Ok? ==> ValidBookFlightResponse(r.value)
  {
    DefaultGateOthers();
    var op := BookingAttempt(posts, nowIso);
    r, calls, waits := WithResilienceAndRetry(op, "bookFlight", FlightRetry, DefaultResilienceConfig, draws);
    if r.Ok? {
      var k :| 0 <= k < 3 && r == op(k);
      assert posts(k).Ok?;
    }
  }

  // ----- _cancelFlightCore and cancelFlight -----

  /** The backend's acknowledgement of a PUT. */
  datatype Ack = Ack

  datatype ApiCancellationRequest = ApiCancellationRequest(reason: string, refundMethod: string)

  const CancellationRequestBody := ApiCancellationRequest("Cancelamento solicitado pelo usuário", "original_payment")

  /** The PUT route: the PNR is used as the booking id. */
  function CancelPath(p: CancelFlightParams): (path: string)
    ensures path == "/api/bookings/" + p.pnr + "/cancel"
  {
    "/api/bookings/" + p.pnr + "/cancel"
  }

  /** `_cancelFlightCore` after the request: a failed PUT propagates;
      otherwise the input PNR is reported canceled at `nowIso`. */
  function CancelFlightCore(p: CancelFlightParams, put: Result<Ack>, nowIso: string): (r: Result<CancelFlightResponse>)
    ensures put.Fail? ==> r == Fail(put.error)
    ensures put.Ok? ==> r.Ok? && r.value.pnr == p.pnr && r.value.canceledAt == nowIso
    ensures r.Ok? ==> ValidCancelFlightResponse(r.value)
  {
    match put
    case Fail(e) => Fail(e)
    case Ok(_) => Ok(CancelFlightResponse(p.pnr, "CANCELED", nowIso))
  }

  function CancelAttempt(p: CancelFlightParams, puts: nat -> Result<Ack>, nowIso: nat -> string)
    : nat -> Result<CancelFlightResponse>
  {
    (k: nat) => CancelFlightCore(p, puts(k), nowIso(k))
  }

  /** `cancelFlight` under the default resilience configuration: the first
      acknowledged PUT among at most three yields a canceled record for the
      same PNR; three failures rethrow the last one. */
  method CancelFlight(p: CancelFlightParams, puts: nat -> Result<Ack>, nowIso: nat -> string, draws: nat -> Draws)
    returns (r: Result<CancelFlightResponse>, calls: nat)
    ensures calls <= 3
    ensures match FirstOkFrom(puts, 0, 3)
            case Some(k) => calls == k + 1 && r == Ok(CancelFlightResponse(p.pnr, "CANCELED", nowIso(k)))
            case None => calls == 3 && r == Fail(puts(2).error)
  {
    DefaultGateOthers();
    var op := CancelAttempt(p, puts, nowIso);
    CancelAttemptOk(p, puts, nowIso, 0, 3);
    var waits;
    r, calls, waits := WithResilienceAndRetry(op, "cancelFlight", FlightRetry, DefaultResilienceConfig, draws);
  }

  /** A cancellation attempt succeeds exactly when its PUT does. */
  lemma {:induction false} CancelAttemptOk(p: CancelFlightParams, puts: nat -> Result<Ack>, nowIso: nat -> string,
                                           k: nat, n: int)
    ensures FirstOkFrom(CancelAttempt(p, puts, nowIso), k, n) == FirstOkFrom(puts, k, n)
    decreases n - k
  {
    if k < n {
      CancelAttemptOk(p, puts, nowIso, k + 1, n);
    }
  }

  /** The flight retry options resolve to the executor's defaults, and
      neither operation name is gated by default. */
  lemma FlightRetryIsDefault()
    ensures ResolveRetry(FlightRetry) == ResolveRetry(NoRetryOptions)
    ensures !IsEnabledOperation("bookFlight", DefaultResilienceConfig)
    ensures !IsEnabledOperation("cancelFlight", DefaultResilienceConfig)
  {
    DefaultGateOthers();
  }
}
