/** The conversion helpers of `src/services/api-types.ts` between the
    flight backend's records and the agent's flight records. Backend
    payloads are untyped objects; a field that may be absent or of another
    type is an `Option`, and JavaScript's `||` fallbacks pick the first
    truthy one. */
module ApiTypes {
  import opened Wrappers
  import opened Strings
  import opened FlightSchemas

  /** `ApiFlight`, restricted to the fields the conversion reads; the price
      is in cents. */
  datatype ApiFlight = ApiFlight(
    id: string,
    flightNumber: string,
    airline: string,
    origin: string,
    destination: string,
    departureTime: string,
    arrivalTime: string,
    price: int,
    currency: string,
    duration: Option<string>,
    stops: int,
    baggageIncluded: bool)

  // ----- parseDurationToMinutes -----

  /** The end of the run of digits starting at `i`. */
  function DigitRunEnd(s: string, i: nat): (e: nat)
    requires i <= |s|
    ensures i <= e <= |s|
    ensures forall k :: i <= k < e ==> IsDigit(s[k])
    ensures e == |s| || !IsDigit(s[e])
    decreases |s| - i
  {
    if i < |s| && IsDigit(s[i]) then DigitRunEnd(s, i + 1) else i
  }

  /** The end of the run of white space starting at `i` (`\s*`). */
  function SpaceRunEnd(s: string, i: nat): (e: nat)
    requires i <= |s|
    ensures i <= e <= |s|
    ensures forall k :: i <= k < e ==> IsSpace(s[k])
    ensures e == |s| || !IsSpace(s[e])
    decreases |s| - i
  {
    if i < |s| && IsSpace(s[i]) then SpaceRunEnd(s, i + 1) else i
  }

  /** Whether `(\d+)h` matches at position `i`: a greedy run of digits
      gives back no digit, so the match needs the whole run followed by
      'h'. */
  predicate HoursAt(s: string, i: nat)
  {
    i < |s| && IsDigit(s[i]) && DigitRunEnd(s, i) < |s| && s[DigitRunEnd(s, i)] == 'h'
  }

  /** The leftmost position at or after `i` where the pattern matches. */
  function FindHours(s: string, i: nat): (r: Option<nat>)
    requires i <= |s|
    ensures r.Some? ==> i <= r.value < |s| && HoursAt(s, r.value) &&
                        forall k :: i <= k < r.value ==> !HoursAt(s, k)
    ensures r.None? ==> forall k :: i <= k ==> !HoursAt(s, k)
    decreases |s| - i
  {
    if i == |s| then None
    else if HoursAt(s, i) then Some(i)
    else FindHours(s, i + 1)
  }

  /** `parseDurationToMinutes(duration)`: 120 for an empty or absent text,
      0 when `(\d+)h\s*(\d+)?m?` does not match, else hours times 60 plus
      the optional minutes. */
  function ParseDurationToMinutes(duration: Option<string>): (m: int)
    ensures m >= 0
    ensures !TruthyString(duration) ==> m == 120
  {
    if !TruthyString(duration) then 120
    else
      var s := duration.value;
      match FindHours(s, 0)
      case None => 0
      case Some(i) => MinutesAt(s, i)
  }

  /** The minutes read from a match at `i`: the hours digits, then after
      'h' and any white space the optional minute digits. */
  function MinutesAt(s: string, i: nat): (m: nat)
    requires HoursAt(s, i)
  {
    var e := DigitRunEnd(s, i);
    var j := SpaceRunEnd(s, e + 1);
    var k := DigitRunEnd(s, j);
    60 * DigitsValue(s[i..e]) + DigitsValue(s[j..k])
  }

  /** The pattern matches somewhere exactly when some digit is directly
      followed by 'h'. */
  lemma HoursSomewhereIff(s: string)
    ensures (exists i :: HoursAt(s, i)) <==>
            exists k :: 0 <= k && k + 1 < |s| && IsDigit(s[k]) && s[k + 1] == 'h'
  {
    if exists i :: HoursAt(s, i) {
      var i :| HoursAt(s, i);
      var e := DigitRunEnd(s, i);
      assert IsDigit(s[e - 1]) && s[e - 1 + 1] == 'h';
    }
    if exists k :: 0 <= k && k + 1 < |s| && IsDigit(s[k]) && s[k + 1] == 'h' {
      var k :| 0 <= k && k + 1 < |s| && IsDigit(s[k]) && s[k + 1] == 'h';
      assert DigitRunEnd(s, k + 1) == k + 1;
      assert HoursAt(s, k);
    }
  }

  /** A non-empty duration with no digit directly before an 'h' gives 0. */
  lemma NoHoursGivesZero(s: string)
    requires s != []
    requires forall k :: 0 <= k && k + 1 < |s| ==> !(IsDigit(s[k]) && s[k + 1] == 'h')
    ensures ParseDurationToMinutes(Some(s)) == 0
  {
    HoursSomewhereIff(s);
  }

  lemma {:induction false} DigitRunEndAt(s: string, i: nat, e: nat)
    requires i <= e <= |s|
    requires forall k :: i <= k < e ==> IsDigit(s[k])
    requires e == |s| || !IsDigit(s[e])
    ensures DigitRunEnd(s, i) == e
    decreases e - i
  {
    if i < e {
      DigitRunEndAt(s, i + 1, e);
    }
  }

  lemma {:induction false} SpaceRunEndAt(s: string, i: nat, e: nat)
    requires i <= e <= |s|
    requires forall k :: i <= k < e ==> IsSpace(s[k])
    requires e == |s| || !IsSpace(s[e])
    ensures SpaceRunEnd(s, i) == e
    decreases e - i
  {
    if i < e {
      SpaceRunEndAt(s, i + 1, e);
    }
  }

  lemma {:induction false} FindHoursFirst(s: string, i: nat, j: nat)
    requires i <= j <= |s|
    requires HoursAt(s, j)
    requires forall k :: i <= k < j ==> !HoursAt(s, k)
    ensures FindHours(s, i) == Some(j)
    decreases j - i
  {
    if i < j {
      FindHoursFirst(s, i + 1, j);
    }
  }

  /** The match read off positions: hours digits at `i..e`, 'h' at `e`,
      white space up to `j`, minute digits at `j..k`. */
  lemma ParseAt(s: string, i: nat, e: nat, j: nat, k: nat)
    requires i < e < j <= k <= |s| && s[e] == 'h'
    requires forall t :: 0 <= t < i ==> !IsDigit(s[t])
    requires forall t :: i <= t < e ==> IsDigit(s[t])
    requires forall t :: e + 1 <= t < j ==> IsSpace(s[t])
    requires forall t :: j <= t < k ==> IsDigit(s[t])
    requires j == |s| || !IsSpace(s[j])
    requires k == |s| || !IsDigit(s[k])
    ensures ParseDurationToMinutes(Some(s)) == 60 * DigitsValue(s[i..e]) + DigitsValue(s[j..k])
  {
    DigitRunEndAt(s, i, e);
    assert HoursAt(s, i);
    forall t | 0 <= t < i
      ensures !HoursAt(s, t)
    {
      assert !IsDigit(s[t]);
    }
    FindHoursFirst(s, 0, i);
    SpaceRunEndAt(s, e + 1, j);
    DigitRunEndAt(s, j, k);
  }

  /** Where the pieces of `pre + h + "h" + sp + m + rest` sit in `s`. */
  lemma DurationLayout(s: string, pre: string, h: string, sp: string, m: string, rest: string)
    requires s == pre + h + "h" + sp + m + rest
    ensures |pre| + |h| + 1 + |sp| + |m| <= |s|
    ensures s[..|pre|] == pre && s[|pre|..|pre| + |h|] == h && s[|pre| + |h|] == 'h'
    ensures s[|pre| + |h| + 1..|pre| + |h| + 1 + |sp|] == sp
    ensures s[|pre| + |h| + 1 + |sp|..|pre| + |h| + 1 + |sp| + |m|] == m
    ensures s[|pre| + |h| + 1 + |sp| + |m|..] == rest
  {
    var p1 := pre + h;
    var p2 := p1 + "h";
    var p3 := p2 + sp;
    var p4 := p3 + m;
    assert s == p4 + rest;
    assert s[..|p4|] == p4 && s[|p4|..] == rest;
    assert p4[..|p3|] == p3 && p4[|p3|..] == m;
    assert p3[..|p2|] == p2 && p3[|p2|..] == sp;
    assert p1[..|pre|] == pre && p1[|pre|..] == h;
  }

  /** `ParseAt` with the runs given as slices of `s`. */
  lemma ParseSlices(s: string, i: nat, e: nat, j: nat, k: nat)
    requires i < e < j <= k <= |s| && s[e] == 'h'
    requires forall t :: 0 <= t < i ==> !IsDigit(s[t])
    requires AllDigits(s[i..e]) && AllSpace(s[e + 1..j]) && AllDigits(s[j..k])
    requires j == |s| || !IsSpace(s[j])
    requires k == |s| || !IsDigit(s[k])
    ensures ParseDurationToMinutes(Some(s)) == 60 * DigitsValue(s[i..e]) + DigitsValue(s[j..k])
  {
    forall t | i <= t < e
      ensures IsDigit(s[t])
    {
      assert s[t] == s[i..e][t - i];
    }
    forall t | e + 1 <= t < j
      ensures IsSpace(s[t])
    {
      assert s[t] == s[e + 1..j][t - e - 1];
    }
    forall t | j <= t < k
      ensures IsDigit(s[t])
    {
      assert s[t] == s[j..k][t - j];
    }
    ParseAt(s, i, e, j, k);
  }

  /** A text made of a digit-free lead-in, `H` digits, 'h', white space,
      `M` digits (possibly none) and a tail that starts with neither a digit
      nor white space reads as `60 * H + M` minutes. */
  lemma HoursAndMinutes(pre: string, h: string, sp: string, m: string, rest: string)
    requires forall t :: 0 <= t < |pre| ==> !IsDigit(pre[t])
    requires |h| > 0 && AllDigits(h) && AllDigits(m)
    requires forall t :: 0 <= t < |sp| ==> IsSpace(sp[t])
    requires rest == [] || (!IsDigit(rest[0]) && !IsSpace(rest[0]))
    ensures ParseDurationToMinutes(Some(pre + h + "h" + sp + m + rest)) == 60 * DigitsValue(h) + DigitsValue(m)
  {
    var s := pre + h + "h" + sp + m + rest;
    var i := |pre|;
    var e := i + |h|;
    var j := e + 1 + |sp|;
    var k := j + |m|;
    DurationLayout(s, pre, h, sp, m, rest);
    forall t | 0 <= t < i
      ensures !IsDigit(s[t])
    {
      assert s[t] == s[..i][t];
    }
    if k < |s| {
      assert s[k] == s[k..][0];
    }
    if j < k {
      assert s[j] == s[j..k][0];
    }
    ParseSlices(s, i, e, j, k);
    assert s[i..e] == h && s[j..k] == m;
  }

  /** The worked examples: "2h 30m" is 150 minutes and "3h" is 180. */
  lemma DurationExamples()
    ensures ParseDurationToMinutes(Some("2h 30m")) == 150
    ensures ParseDurationToMinutes(Some("3h")) == 180
  {
    HoursAndMinutesExample();
    WholeHoursExample();
  }

  lemma HoursAndMinutesExample()
    ensures ParseDurationToMinutes(Some("2h 30m")) == 150
  {
    var s := "2h 30m";
    assert s[0..1] == "2" && s[3..5] == "30";
    assert DigitsValue("30") == 30 by {
      assert "30"[..1] == "3";
    }
    ParseAt(s, 0, 1, 3, 5);
  }

  lemma WholeHoursExample()
    ensures ParseDurationToMinutes(Some("3h")) == 180
  {
    var t := "3h";
    assert t[0..1] == "3" && t[2..2] == [];
    ParseAt(t, 0, 1, 2, 2);
  }

  // ----- convertApiFlightToItinerary -----

  /** `s.substring(0, 2)`. */
  function Prefix2(s: string): (r: string)
    ensures |r| == if |s| < 2 then |s| else 2
    ensures StartsWith(s, r)
  {
    if |s| < 2 then s else s[..2]
  }

  /** `convertApiFlightToItinerary`; the locale time formatting
      (`toLocaleTimeString("pt-BR", ...)`) is the parameter `localTime`. */
  function ConvertApiFlightToItinerary(f: ApiFlight, localTime: string -> string): (it: FlightItinerary)
    ensures it.itineraryId == f.id && it.airline == f.airline && it.inbound == Some([])
    ensures |it.outbound| == 1
    ensures it.outbound[0].from == f.origin && it.outbound[0].to == f.destination
    ensures it.outbound[0].flightNumber == f.flightNumber
    ensures it.outbound[0].carrier == Upper(Prefix2(f.airline))
    ensures it.outbound[0].durationMin == ParseDurationToMinutes(f.duration)
    ensures it.stops == f.stops && it.baggageIncluded == f.baggageIncluded
    ensures it.totalPrice == f.price && it.currency == f.currency
  {
    FlightItinerary(
      f.id, f.airline,
      [FlightSegment(Upper(Prefix2(f.airline)), f.flightNumber, f.origin, f.destination,
                     localTime(f.departureTime), localTime(f.arrivalTime),
                     ParseDurationToMinutes(f.duration))],
      Some([]), f.stops, f.baggageIncluded, f.price, f.currency)
  }

  /** The carrier code is at most two characters and has no lower-case
      letters. */
  lemma CarrierCodeShape(f: ApiFlight, localTime: string -> string)
    ensures var c := ConvertApiFlightToItinerary(f, localTime).outbound[0].carrier;
            |c| <= 2 && forall i :: 0 <= i < |c| ==> !IsLowerLetter(c[i])
  {
    var c := ConvertApiFlightToItinerary(f, localTime).outbound[0].carrier;
    forall i | 0 <= i < |c| ensures !IsLowerLetter(c[i]) {
      assert c[i] == UpperChar(Prefix2(f.airline)[i]);
    }
  }

  // ----- convertApiBookingToResponse -----

  /** `passenger` of a backend booking, as an untyped object. */
  datatype ApiPassengerData = ApiPassengerData(name: Option<string>, fullName: Option<string>, email: Option<string>)

  datatype ApiFlightRef = ApiFlightRef(id: Option<string>)

  /** A backend booking object: the fields the conversion reads, and the
      object's own keys in order (`Object.keys`). */
  datatype ApiBookingData = ApiBookingData(
    bookingReference: Option<string>,
    booking_reference: Option<string>,
    reference: Option<string>,
    confirmation_code: Option<string>,
    pnr: Option<string>,
    id: Option<string>,
    totalPrice: Option<int>,
    total_price: Option<int>,
    total: Option<int>,
    passenger: Option<ApiPassengerData>,
    flightId: Option<string>,
    flight_id: Option<string>,
    flight: Option<ApiFlightRef>,
    createdAt: Option<string>,
    created_at: Option<string>,
    keys: seq<string>)

  /** `a || b || c || 0` for numbers: the first present non-zero one. */
  function FirstNonZero(cands: seq<Option<int>>): (r: int)
    ensures r != 0 ==> exists i :: 0 <= i < |cands| && cands[i] == Some(r) &&
                                   forall j :: 0 <= j < i ==> IntOr(cands[j], 0) == 0
    ensures r == 0 <==> forall i :: 0 <= i < |cands| ==> IntOr(cands[i], 0) == 0
  {
    if cands == [] then 0
    else if IntOr(cands[0], 0) != 0 then cands[0].value
    else
      var r := FirstNonZero(cands[1..]);
      assert forall i :: 1 <= i < |cands| ==> cands[i] == cands[1..][i - 1];
      r
  }

  const MissingBookingData := Error("Resposta de booking inválida: dados não encontrados")
  const NoReferencePrefix := "Resposta de booking inválida: nenhum campo de referência encontrado. Campos disponíveis: "

  function ReferenceCandidates(b: ApiBookingData): seq<Option<string>>
  {
    [b.bookingReference, b.booking_reference, b.reference, b.confirmation_code, b.pnr, b.id]
  }

  /** `apiBooking.passenger?.…`: the passenger object, or one with no
      fields when it is absent. */
  function PassengerData(b: ApiBookingData): ApiPassengerData
  {
    if b.passenger.Some? then b.passenger.value else ApiPassengerData(None, None, None)
  }

  /** `apiBooking.flight?.id`. */
  function FlightRefId(b: ApiBookingData): Option<string>
  {
    if b.flight.Some? then b.flight.value.id else None
  }

  /** `convertApiBookingToResponse(apiBooking)`; `None` is a falsy input
      and `nowIso` the current time's ISO text. */
  function ConvertApiBookingToResponse(data: Option<ApiBookingData>, nowIso: string): (r: Result<BookFlightResponse>)
    ensures data.None? ==> r == Fail(MissingBookingData)
    ensures data.Some? && FirstTruthy(ReferenceCandidates(data.value)).None? ==>
              r == Fail(Error(NoReferencePrefix + Join(data.value.keys, ", ")))
    ensures data.Some? && FirstTruthy(ReferenceCandidates(data.value)).Some? ==>
              r.Ok? && r.value.pnr == FirstTruthy(ReferenceCandidates(data.value)).value && r.value.pnr != ""
    ensures r.Ok? ==> ValidBookFlightResponse(r.value)
    ensures r.Ok? ==> var b := data.value;
              r.value.total == FirstNonZero([b.totalPrice, b.total_price, b.total]) &&
              r.value.createdAt == TextOr([b.createdAt, b.created_at], nowIso)
    ensures r.Ok? ==> var pass := PassengerData(data.value);
              r.value.passenger.fullName == TextOr([pass.name, pass.fullName], "") &&
              r.value.passenger.email == TextOr([pass.email], "")
    ensures r.Ok? ==> var b := data.value;
              r.value.itineraryId == TextOr([b.flightId, b.flight_id, FlightRefId(b)], "")
  {
    match data
    case None => Fail(MissingBookingData)
    case Some(b) =>
      match FirstTruthy(ReferenceCandidates(b))
      case None => Fail(Error(NoReferencePrefix + Join(b.keys, ", ")))
      case Some(ref) =>
        var pass := PassengerData(b);
        Ok(BookFlightResponse(
             ref, "TICKETED",
             FirstNonZero([b.totalPrice, b.total_price, b.total]),
             Passenger(TextOr([pass.name, pass.fullName], ""), TextOr([pass.email], "")),
             TextOr([b.flightId, b.flight_id, FlightRefId(b)], ""),
             TextOr([b.createdAt, b.created_at], nowIso)))
  }

  // ----- convertBookingParamsToApiRequest -----

  datatype ApiBookingPassenger = ApiBookingPassenger(name: string, email: string, phone: string, document: string)

  datatype ApiBookingRequest = ApiBookingRequest(passenger: ApiBookingPassenger)

  const PlaceholderPhone := "+5511999999999"
  const PlaceholderDocument := "000.000.000-00"

  /** `convertBookingParamsToApiRequest`: the passenger's name and e-mail,
      with placeholder phone and document. */
  function ConvertBookingParamsToApiRequest(p: BookFlightParams): (r: ApiBookingRequest)
    ensures r.passenger.phone == PlaceholderPhone && r.passenger.document == PlaceholderDocument
  {
    ApiBookingRequest(ApiBookingPassenger(p.passenger.fullName, p.passenger.email, PlaceholderPhone, PlaceholderDocument))
  }

  /** A backend booking that echoes the request's passenger (the backend's
      `ApiBooking` shape: `bookingReference`, `flightId`, `passenger`)
      converts back to a response carrying the same passenger, itinerary
      and reference, whatever the name, e-mail and itinerary; only the
      reference must be non-empty, since an empty one is refused. */
  lemma BookingRoundTrip(p: BookFlightParams, ref: string, price: int, created: string, nowIso: string)
    requires ref != ""
    ensures var req := ConvertBookingParamsToApiRequest(p);
            var echoed := ApiBookingData(
              Some(ref), None, None, None, None, None, Some(price), None, None,
              Some(ApiPassengerData(Some(req.passenger.name), None, Some(req.passenger.email))),
              Some(p.itineraryId), None, None, Some(created), None, []);
            var r := ConvertApiBookingToResponse(Some(echoed), nowIso);
            r.Ok? && r.value.passenger == p.passenger && r.value.itineraryId == p.itineraryId &&
            r.value.pnr == ref
  {
  }
}
