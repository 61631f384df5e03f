/** The flight records of `src/agent/schemas/flights.ts`. Each Zod object
    becomes a datatype; the constraints Zod checks beyond the field types
    become validity predicates. Prices are integer cents; date strings are
    `CalendarDate`s. Fields the code tests for falsiness before use are
    `Option`s, since tool-call arguments reach the code unchecked. */
module FlightSchemas {
  import opened Wrappers

  /** `listFlightsSchema`. */
  datatype ListFlightsParams = ListFlightsParams(
    origin: string,
    destination: string,
    departDate: CalendarDate,
    returnDate: Option<CalendarDate>,
    adults: int,
    directOnly: Option<bool>,
    withBaggage: Option<bool>,
    cheapestOnly: Option<bool>)

  /** `adults: z.number().min(1).max(9)`. */
  predicate ValidListFlightsParams(p: ListFlightsParams)
  {
    1 <= p.adults <= 9
  }

  datatype Passenger = Passenger(fullName: string, email: string)

  /** `bookFlightSchema`. */
  datatype BookFlightParams = BookFlightParams(itineraryId: string, passenger: Passenger)

  /** `passenger.email: z.string().email()`. Zod's e-mail pattern is library
      code, so the check is a parameter. */
  predicate ValidBookFlightParams(p: BookFlightParams, isEmail: string -> bool)
  {
    isEmail(p.passenger.email)
  }

  /** `cancelFlightSchema`. */
  datatype CancelFlightParams = CancelFlightParams(pnr: string)

  /** `flightSegmentSchema`; `durationMin` in minutes. */
  datatype FlightSegment = FlightSegment(
    carrier: string,
    flightNumber: string,
    from: string,
    to: string,
    depTime: string,
    arrTime: string,
    durationMin: int)

  /** `flightItinerarySchema`; `inbound` is optional. */
  datatype FlightItinerary = FlightItinerary(
    itineraryId: string,
    airline: string,
    outbound: seq<FlightSegment>,
    inbound: Option<seq<FlightSegment>>,
    stops: int,
    baggageIncluded: bool,
    totalPrice: int,
    currency: string)

  /** `bookFlightResponseSchema`. */
  datatype BookFlightResponse = BookFlightResponse(
    pnr: string,
    status: string,
    total: int,
    passenger: Passenger,
    itineraryId: string,
    createdAt: string)

  /** `status: z.literal("TICKETED")`. */
  predicate ValidBookFlightResponse(r: BookFlightResponse)
  {
    r.status == "TICKETED"
  }

  /** `cancelFlightResponseSchema`. */
  datatype CancelFlightResponse = CancelFlightResponse(pnr: string, status: string, canceledAt: string)

  /** `status: z.literal("CANCELED")`. */
  predicate ValidCancelFlightResponse(r: CancelFlightResponse)
  {
    r.status == "CANCELED"
  }

  /** `flightSearchExtractionSchema`. */
  datatype FlightSearchExtraction = FlightSearchExtraction(
    origin: Option<string>,
    destination: Option<string>,
    departDate: Option<CalendarDate>,
    returnDate: Option<CalendarDate>,
    adults: Option<int>,
    directOnly: Option<bool>,
    withBaggage: Option<bool>,
    cheapestOnly: Option<bool>)

  /** Only origin and destination are required. */
  predicate ValidFlightSearchExtraction(x: FlightSearchExtraction)
  {
    x.origin.Some? && x.destination.Some?
  }

  /** `flightBookingExtractionSchema`: three plain strings, no e-mail check. */
  datatype FlightBookingExtraction = FlightBookingExtraction(itineraryId: string, fullName: string, email: string)

  /** `flightCancellationExtractionSchema`. */
  datatype FlightCancellationExtraction = FlightCancellationExtraction(pnr: string)
}
