/** The mock hotel service of `src/services/hotels-api.ts`: search over
    its own catalogue, booking, cancellation, lookup and re-sorting. Each
    operation's body is modelled as a function or method of its inputs;
    the clock, `Math.random()` and the simulated latency are parameters. */
module HotelsApi {
  import opened Wrappers
  import opened Strings
  import opened Sorting
  import opened Sequences
  import opened HotelSchemas
  import opened Resilience
  import HotelCatalog
  import HotelPolicyTags

  /** `MOCK_HOTELS_DB`. */
  const MockHotelsDb: seq<Hotel> := [
    Hotel("sfo-001", "The St. Regis San Francisco", 45000, Finite(450000), 48,
          "Free cancellation until 48h before check-in", "USD", "San Francisco",
          Some("https://images.unsplash.com/photo-1566073771259-6a8506099945?w=600")),
    Hotel("sfo-002", "Hotel Zephyr San Francisco", 32000, Finite(320000), 45,
          "Free cancellation until 24h before check-in - Breakfast included", "USD", "San Francisco",
          Some("https://images.unsplash.com/photo-1571003123894-1f0594d2b5d9?w=600")),
    Hotel("sfo-003", "Hyatt Regency San Francisco", 28000, Finite(280000), 43,
          "Free cancellation until 72h before check-in - Breakfast included", "USD", "San Francisco",
          Some("https://images.unsplash.com/photo-1551882547-ff40c63fe5fa?w=600")),
    Hotel("bh-001", "Tryp by Wyndham Belo Horizonte Savassi", 28000, Finite(252000), 46,
          "Cancelamento gratuito até 24h antes - Café da manhã incluído", "BRL", "Belo Horizonte",
          Some("https://images.unsplash.com/photo-1520250497591-112f2f40a3f4?w=600")),
    Hotel("bh-002", "Radisson Blu Belo Horizonte", 32000, Finite(288000), 45,
          "Cancelamento gratuito até 48h antes", "BRL", "Belo Horizonte",
          Some("https://images.unsplash.com/photo-1578662996442-48f60103fc96?w=600")),
    Hotel("sfo-004", "Marriott San Francisco", 38000, Finite(380000), 42,
          "Free cancellation until 24h before check-in", "USD", "San Francisco",
          Some("https://images.unsplash.com/photo-1578662996442-48f60103fc96?w=600")),
    Hotel("bh-003", "Holiday Inn Express Belo Horizonte", 19500, Finite(175500), 42,
          "Cancelamento gratuito até 24h antes - Café da manhã incluído", "BRL", "Belo Horizonte",
          Some("https://images.unsplash.com/photo-1551882547-ff40c63fe5fa?w=600"))
  ]

  /** Retry options passed by each operation. */
  const SearchRetry := RetryOptions(Some(2), Some(500), None, None)
  const BookingRetry := RetryOptions(Some(3), Some(1000), None, None)
  const CancellationRetry := RetryOptions(Some(2), Some(750), None, None)
  const DetailsRetry := RetryOptions(Some(2), Some(300), None, None)
  const SortedSearchRetry := RetryOptions(Some(2), Some(600), None, None)

  /** The city test of this service: only the hotel city must contain the
      query. */
  predicate CityMatches(hotelCity: string, query: string)
  {
    Contains(Lower(hotelCity), Lower(query))
  }

  predicate BreakfastPolicy(policy: string)
  {
    Contains(Lower(policy), "breakfast") || Contains(Lower(policy), "manhã")
  }

  predicate RefundablePolicy(policy: string)
  {
    Contains(Lower(policy), "free cancellation") || Contains(Lower(policy), "cancelamento gratuito")
  }

  predicate Passes(h: Hotel, p: ListHotelsParams)
  {
    CityMatches(h.city, p.city) &&
    (p.withBreakfast == Some(true) ==> BreakfastPolicy(h.policy)) &&
    (p.refundableOnly == Some(true) ==> RefundablePolicy(h.policy))
  }

  /** Whether both dates are non-empty texts, the test guarding the total's
      recomputation. */
  predicate DatesGiven(p: ListHotelsParams)
  {
    !p.checkin.Blank? && !p.checkout.Blank?
  }

  /** The total for `rooms` rooms over `nights` nights. */
  function StayTotal(nightly: int, nights: Num, rooms: int): (r: Num)
    ensures r.NaN? <==> nights.NaN?
    ensures r.Finite? ==> r.v == nightly * nights.v * rooms
  {
    match nights
    case Finite(n) => Finite(nightly * n * rooms)
    case NaN => NaN
  }

  /** The recomputation step: a new total when both dates are given,
      the stored total otherwise. */
  function Recompute(h: Hotel, p: ListHotelsParams): (r: Hotel)
    ensures DatesGiven(p) ==>
              r == h.(total := StayTotal(h.nightly, HotelCatalog.Nights(p.checkin, p.checkout), p.rooms))
    ensures !DatesGiven(p) ==> r == h
  {
    if DatesGiven(p) then h.(total := StayTotal(h.nightly, HotelCatalog.Nights(p.checkin, p.checkout), p.rooms))
    else h
  }

  function NegRating(h: Hotel): int
  {
    -h.rating
  }

  function Nightly(h: Hotel): int
  {
    h.nightly
  }

  /** The search before its sort: the three filters, then the totals. */
  function Filtered(db: seq<Hotel>, p: ListHotelsParams): seq<Hotel>
  {
    var r1 := Filter(db, (h: Hotel) => CityMatches(h.city, p.city));
    var r2 := if p.withBreakfast == Some(true) then Filter(r1, (h: Hotel) => BreakfastPolicy(h.policy)) else r1;
    var r3 := if p.refundableOnly == Some(true) then Filter(r2, (h: Hotel) => RefundablePolicy(h.policy)) else r2;
    Map(r3, (h: Hotel) => Recompute(h, p))
  }

  /** What one search attempt returns. */
  function SearchResults(db: seq<Hotel>, p: ListHotelsParams): seq<Hotel>
  {
    SortBy(Filtered(db, p), NegRating)
  }

  /** The body of `listHotels`: filters rebuild the list, then it is
      sorted in place. */
  method SearchOnce(db: seq<Hotel>, p: ListHotelsParams) returns (hotels: seq<Hotel>)
    ensures hotels == SearchResults(db, p)
  {
    var filtered := Filtered(db, p);
    var a := new Hotel[|filtered|](i requires 0 <= i < |filtered| => filtered[i]);
    assert a[..] == filtered;
    SortArrayBy(a, NegRating);
    hotels := a[..];
  }

  /** `listHotels` under the default resilience configuration. The name
      "hotel-search" is not gated, so the first attempt succeeds and no
      latency or failure is injected, whatever the random draws. */
  method ListHotels(db: seq<Hotel>, p: ListHotelsParams, draws: nat -> Draws)
    returns (r: Result<seq<Hotel>>, calls: nat)
    ensures r == Ok(SearchResults(db, p)) && calls == 1
  {
    var hotels := SearchOnce(db, p);
    var waits;
    DefaultGateOthers();
    r, calls, waits := WithResilienceAndRetry((k: nat) => Ok(hotels), "hotel-search", SearchRetry,
                                              DefaultResilienceConfig, draws);
  }

  lemma {:induction false} FilteredMembers(db: seq<Hotel>, p: ListHotelsParams)
    ensures forall x :: x in Filtered(db, p) ==> exists h :: h in db && Passes(h, p) && x == Recompute(h, p)
    ensures forall h :: h in db && Passes(h, p) ==> Recompute(h, p) in Filtered(db, p)
  {
    var r1 := Filter(db, (h: Hotel) => CityMatches(h.city, p.city));
    var r2 := if p.withBreakfast == Some(true) then Filter(r1, (h: Hotel) => BreakfastPolicy(h.policy)) else r1;
    var r3 := if p.refundableOnly == Some(true) then Filter(r2, (h: Hotel) => RefundablePolicy(h.policy)) else r2;
    FilterMembers(db, (h: Hotel) => CityMatches(h.city, p.city));
    FilterMembers(r1, (h: Hotel) => BreakfastPolicy(h.policy));
    FilterMembers(r2, (h: Hotel) => RefundablePolicy(h.policy));
    var r4 := Map(r3, (h: Hotel) => Recompute(h, p));
    forall x | x in r4 ensures exists h :: h in db && Passes(h, p) && x == Recompute(h, p) {
      var i :| 0 <= i < |r4| && r4[i] == x;
      assert r3[i] in r3;
    }
    forall h | h in db && Passes(h, p) ensures Recompute(h, p) in r4 {
      assert h in r3;
      var i :| 0 <= i < |r3| && r3[i] == h;
      assert r4[i] == Recompute(h, p);
    }
  }

  /** What a search promises: every result is a catalogue hotel that
      passes the filters, with its total recomputed only when both dates
      are given; every passing hotel is returned; best rating first, ties
      in catalogue order; no id twice. */
  lemma SearchSpec(db: seq<Hotel>, p: ListHotelsParams)
    ensures forall x :: x in SearchResults(db, p) ==>
              exists h :: h in db && Passes(h, p) && x == Recompute(h, p)
    ensures forall h :: h in db && Passes(h, p) ==> Recompute(h, p) in SearchResults(db, p)
    ensures var r := SearchResults(db, p);
            forall i, j :: 0 <= i < j < |r| ==> r[i].rating >= r[j].rating
    ensures forall k :: WithKey(SearchResults(db, p), NegRating, k) == WithKey(Filtered(db, p), NegRating, k)
  {
    FilteredMembers(db, p);
    SortByProps(Filtered(db, p), NegRating);
    var r := SearchResults(db, p);
    forall x | x in r ensures x in Filtered(db, p) {
      assert x in multiset(r);
    }
    forall x | x in Filtered(db, p) ensures x in r {
      assert x in multiset(Filtered(db, p));
    }
  }

  lemma SearchDistinct(db: seq<Hotel>, p: ListHotelsParams)
    requires DistinctBy(db, (h: Hotel) => h.hotelId)
    ensures DistinctBy(SearchResults(db, p), (h: Hotel) => h.hotelId)
  {
    var id := (h: Hotel) => h.hotelId;
    var r1 := Filter(db, (h: Hotel) => CityMatches(h.city, p.city));
    FilterDistinct(db, (h: Hotel) => CityMatches(h.city, p.city), id);
    var r2 := if p.withBreakfast == Some(true) then Filter(r1, (h: Hotel) => BreakfastPolicy(h.policy)) else r1;
    FilterDistinct(r1, (h: Hotel) => BreakfastPolicy(h.policy), id);
    var r3 := if p.refundableOnly == Some(true) then Filter(r2, (h: Hotel) => RefundablePolicy(h.policy)) else r2;
    FilterDistinct(r2, (h: Hotel) => RefundablePolicy(h.policy), id);
    MapDistinct(r3, (h: Hotel) => Recompute(h, p), id);
    SortDistinct(Filtered(db, p), NegRating, id);
  }

  lemma MockIdsDistinct()
    ensures DistinctBy(MockHotelsDb, (h: Hotel) => h.hotelId)
  {
  }

  /** A text never contains a longer one. */
  lemma LongerNotContained(s: string, p: string)
    requires |s| < |p|
    ensures !Contains(s, p)
  {
  }

  /** Unlike the agent's own search, this city test is one-directional: a
      query that adds a suffix to a hotel's city (such as a state name)
      matches that hotel in the agent's search but not here. */
  lemma CityTestOneDirectional(city: string, suffix: string)
    requires |suffix| > 0
    ensures HotelCatalog.CityMatches(city, city + suffix)
    ensures !CityMatches(city, city + suffix)
  {
    LowerAppend(city, suffix);
    assert Lower(city + suffix)[0..|city|] == Lower(city);
    ContainsAt(Lower(city + suffix), Lower(city), 0);
    LongerNotContained(Lower(city), Lower(city + suffix));
  }

  /** The breakfast test accepts "manhã" alone, which the breakfast tag
      (looking for "café da manhã" or "breakfast") does not. */
  lemma BreakfastTestWiderThanTag()
    ensures BreakfastPolicy("manhã")
    ensures HotelPolicyTags.BreakfastTag !in HotelPolicyTags.Tags("manhã")
  {
    assert Lower("manhã") == "manhã";
    ContainsAt("manhã", "manhã", 0);
    LongerNotContained("manhã", "café da manhã");
    LongerNotContained("manhã", "breakfast");
  }

  /** Every hotel a refundable search returns shows the free-cancellation
      tag: both use the same phrases. */
  lemma RefundableMatchesTag(db: seq<Hotel>, p: ListHotelsParams)
    requires p.refundableOnly == Some(true)
    ensures forall x :: x in SearchResults(db, p) ==>
              HotelPolicyTags.FreeCancellationTag in HotelPolicyTags.Tags(x.policy)
  {
    SearchSpec(db, p);
  }

  /** `guest` of a booking request. */
  datatype Guest = Guest(fullName: string, email: string, phone: Option<string>)

  datatype BookHotelParams = BookHotelParams(
    hotelId: string,
    checkin: CalendarDate,
    checkout: CalendarDate,
    rooms: int,
    guest: Guest,
    specialRequests: Option<string>)

  datatype HotelRef = HotelRef(name: string, city: string)

  datatype HotelBookingResponse = HotelBookingResponse(
    reservationId: string,
    status: string,
    total: Num,
    currency: string,
    checkin: CalendarDate,
    checkout: CalendarDate,
    nights: Num,
    guest: Guest,
    hotel: HotelRef,
    bookingDate: string,
    cancellationPolicy: string)

  datatype CancelHotelParams = CancelHotelParams(reservationId: string, reason: Option<string>)

  datatype CancelHotelResponse = CancelHotelResponse(
    reservationId: string,
    status: string,
    refundAmount: Option<int>,
    refundMethod: Option<string>,
    canceledAt: string)

  /** `MOCK_HOTELS_DB.find(h => h.hotelId === id)`. */
  function FindHotel(db: seq<Hotel>, id: string): (r: Option<Hotel>)
    ensures r.Some? ==> r.value in db && r.value.hotelId == id
    ensures r.None? <==> forall h :: h in db ==> h.hotelId != id
    ensures r.Some? && |db| > 0 && db[0].hotelId == id ==> r.value == db[0]
  {
    if db == [] then None
    else if db[0].hotelId == id then Some(db[0])
    else FindHotel(db[1..], id)
  }

  function NotFound(id: string): Error
  {
    Error("Hotel " + id + " não encontrado")
  }

  /** `getHotelDetails(id)`. */
  function HotelDetails(db: seq<Hotel>, id: string): (r: Result<Hotel>)
    ensures r.Ok? ==> r.value in db && r.value.hotelId == id
    ensures r.Fail? <==> forall h :: h in db ==> h.hotelId != id
    ensures r.Fail? ==> r.error == NotFound(id)
  {
    match FindHotel(db, id)
    case Some(h) => Ok(h)
    case None => Fail(NotFound(id))
  }

  /** When ids are distinct the lookup returns the one hotel with that id. */
  lemma DetailsUnique(db: seq<Hotel>, h: Hotel)
    requires DistinctBy(db, (x: Hotel) => x.hotelId)
    requires h in db
    ensures HotelDetails(db, h.hotelId) == Ok(h)
  {
    var r := HotelDetails(db, h.hotelId);
    var i :| 0 <= i < |db| && db[i] == h;
    var j :| 0 <= j < |db| && db[j] == r.value;
  }

  /** `HR<now><floor(random * 1000)>`. */
  function ReservationId(now: int, draw: Unit): string
  {
    "HR" + IntToString(now) + IntToString((draw * 1000.0).Floor)
  }

  /** The body of `bookHotel`, with the clock reading `now`, its ISO text
      `nowIso` and the random draw as parameters. */
  function BookHotelCore(db: seq<Hotel>, p: BookHotelParams, now: int, nowIso: string, draw: Unit)
    : (r: Result<HotelBookingResponse>)
    ensures r.Fail? <==> FindHotel(db, p.hotelId).None?
    ensures r.Fail? ==> r.error == NotFound(p.hotelId)
    ensures r.Ok? ==>
              var h := FindHotel(db, p.hotelId).value;
              var nights := HotelCatalog.Nights(p.checkin, p.checkout);
              r.value.status == "BOOKED" &&
              r.value.nights == nights &&
              r.value.total == StayTotal(h.nightly, nights, p.rooms) &&
              r.value.currency == h.currency && r.value.cancellationPolicy == h.policy &&
              r.value.guest == p.guest && r.value.hotel == HotelRef(h.name, h.city) &&
              r.value.checkin == p.checkin && r.value.checkout == p.checkout &&
              r.value.bookingDate == nowIso &&
              StartsWith(r.value.reservationId, "HR")
  {
    match FindHotel(db, p.hotelId)
    case None => Fail(NotFound(p.hotelId))
    case Some(h) =>
      var nights := HotelCatalog.Nights(p.checkin, p.checkout);
      Ok(HotelBookingResponse(ReservationId(now, draw), "BOOKED", StayTotal(h.nightly, nights, p.rooms),
                              h.currency, p.checkin, p.checkout, nights, p.guest,
                              HotelRef(h.name, h.city), nowIso, h.policy))
  }

  const InvalidReservation := Error("ID de reserva inválido")

  /** The body of `cancelHotel`; the refund is `floor(random * 2000) + 500`. */
  function CancelHotelCore(p: CancelHotelParams, nowIso: string, draw: Unit): (r: Result<CancelHotelResponse>)
    ensures r.Fail? <==> !StartsWith(p.reservationId, "HR")
    ensures r.Fail? ==> r.error == InvalidReservation
    ensures r.Ok? ==>
              r.value.reservationId == p.reservationId && r.value.status == "CANCELED" &&
              r.value.refundAmount.Some? && 500 <= r.value.refundAmount.value < 2500 &&
              r.value.refundMethod == Some("original_payment") && r.value.canceledAt == nowIso
  {
    if !StartsWith(p.reservationId, "HR") then Fail(InvalidReservation)
    else Ok(CancelHotelResponse(p.reservationId, "CANCELED", Some((draw * 2000.0).Floor + 500),
                                Some("original_payment"), nowIso))
  }

  /** Every reservation `bookHotel` issues is accepted by `cancelHotel`. */
  lemma BookedReservationCancels(db: seq<Hotel>, p: BookHotelParams, now: int, nowIso: string,
                                 draw: Unit, reason: Option<string>, later: string, draw2: Unit)
    requires BookHotelCore(db, p, now, nowIso, draw).Ok?
    ensures var b := BookHotelCore(db, p, now, nowIso, draw).value;
            var c := CancelHotelCore(CancelHotelParams(b.reservationId, reason), later, draw2);
            c.Ok? && c.value.reservationId == b.reservationId
  {
  }

  /** `searchHotelsSorted`'s sort key. */
  datatype SortKey = Price | Rating

  /** The result of `searchHotelsSorted(params, sortBy)`. */
  function SortedResults(db: seq<Hotel>, p: ListHotelsParams, sortBy: Option<SortKey>): seq<Hotel>
  {
    var hotels := SearchResults(db, p);
    match sortBy
    case Some(Price) => SortBy(hotels, Nightly)
    case Some(Rating) => SortBy(hotels, NegRating)
    case None => hotels
  }

  /** The body of `searchHotelsSorted`: the search, then an in-place sort
      chosen by `sortBy`. */
  method SearchSorted(db: seq<Hotel>, p: ListHotelsParams, sortBy: Option<SortKey>) returns (hotels: seq<Hotel>)
    ensures hotels == SortedResults(db, p, sortBy)
  {
    var found := SearchOnce(db, p);
    var a := new Hotel[|found|](i requires 0 <= i < |found| => found[i]);
    assert a[..] == found;
    if sortBy == Some(Price) {
      SortArrayBy(a, Nightly);
    } else if sortBy == Some(Rating) {
      SortArrayBy(a, NegRating);
    }
    hotels := a[..];
  }

  /** Sorting by rating again, or not at all, keeps the search order. */
  lemma SortedByRatingKeepsOrder(db: seq<Hotel>, p: ListHotelsParams, sortBy: Option<SortKey>)
    requires sortBy != Some(Price)
    ensures SortedResults(db, p, sortBy) == SearchResults(db, p)
  {
    if sortBy == Some(Rating) {
      SortByIdempotent(Filtered(db, p), NegRating);
    }
  }

  /** Sorting by price orders by nightly rate, cheapest first, without
      adding or losing hotels, and keeps rating order among equal rates. */
  lemma SortedByPriceSpec(db: seq<Hotel>, p: ListHotelsParams)
    ensures var r := SortedResults(db, p, Some(Price));
            forall i, j :: 0 <= i < j < |r| ==> r[i].nightly <= r[j].nightly
    ensures multiset(SortedResults(db, p, Some(Price))) == multiset(SearchResults(db, p))
    ensures forall k :: WithKey(SortedResults(db, p, Some(Price)), Nightly, k) == WithKey(SearchResults(db, p), Nightly, k)
  {
    SortByProps(SearchResults(db, p), Nightly);
  }

  /** Under the service's retry options, the waits after failed attempts:
      one wait for the two-attempt operations, two for booking. */
  lemma RetrySchedules()
    ensures Schedule(ResolveRetry(SearchRetry), 1) == [500]
    ensures Schedule(ResolveRetry(BookingRetry), 2) == [1000, 2000]
    ensures Schedule(ResolveRetry(CancellationRetry), 1) == [750]
    ensures Schedule(ResolveRetry(DetailsRetry), 1) == [300]
    ensures Schedule(ResolveRetry(SortedSearchRetry), 1) == [600]
  {
  }
}
