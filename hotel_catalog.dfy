/** The agent's own hotel search (`src/agent/hotels/utils/hotels-tools.ts`):
    a fixed catalogue, the night count between two dates, and the
    filter, re-price and sort pipeline of `listHotels`. Prices are cents,
    ratings tenths of a star; the simulated 600 ms delay is left out. */
module HotelCatalog {
  import opened Wrappers
  import opened Strings
  import opened Sorting
  import opened Sequences
  import opened HotelSchemas
  import HotelPolicyTags

  /** `HOTELS_DATABASE`. */
  const Database: seq<Hotel> := [
    Hotel("bh-001", "Tryp by Wyndham Belo Horizonte Savassi", 28000, Finite(56000), 46,
          "Cancelamento gratuito até 24h antes - Café da manhã incluído", "BRL", "Belo Horizonte",
          Some("https://images.unsplash.com/photo-1566073771259-6a8506099945?w=400")),
    Hotel("bh-002", "Radisson Blu Belo Horizonte", 32000, Finite(64000), 45,
          "Cancelamento gratuito até 48h antes", "BRL", "Belo Horizonte",
          Some("https://images.unsplash.com/photo-1571003123894-1f0594d2b5d9?w=400")),
    Hotel("bh-003", "Holiday Inn Express Belo Horizonte Afonso Pena", 19500, Finite(39000), 42,
          "Cancelamento gratuito até 24h antes - Café da manhã incluído", "BRL", "Belo Horizonte",
          Some("https://images.unsplash.com/photo-1551882547-ff40c63fe5fa?w=400")),
    Hotel("bh-004", "Mercure Belo Horizonte Vila da Serra", 38000, Finite(76000), 47,
          "Cancelamento gratuito até 72h antes", "BRL", "Belo Horizonte",
          Some("https://images.unsplash.com/photo-1520250497591-112f2f40a3f4?w=400")),
    Hotel("bh-005", "ibis Belo Horizonte Liberdade", 14000, Finite(28000), 39,
          "Cancelamento gratuito até 18h do dia da chegada", "BRL", "Belo Horizonte",
          Some("https://images.unsplash.com/photo-1582719478250-c89cae4dc85b?w=400")),
    Hotel("bh-006", "Hotel Fasano Belo Horizonte", 65000, Finite(130000), 49,
          "Não reembolsável - Serviço de concierge 24h", "BRL", "Belo Horizonte",
          Some("https://images.unsplash.com/photo-1590490360182-c33d57733427?w=400")),
    Hotel("bh-007", "Quality Hotel Afonso Pena", 16500, Finite(33000), 41,
          "Cancelamento gratuito até 24h antes", "BRL", "Belo Horizonte",
          Some("https://images.unsplash.com/photo-1566073771259-6a8506099945?w=400")),
    Hotel("sfo-001", "Grand Hyatt San Francisco", 35000, Finite(315000), 45,
          "Cancelamento gratuito até 24h antes", "USD", "San Francisco",
          Some("https://images.unsplash.com/photo-1566073771259-6a8506099945?w=400")),
    Hotel("sfo-002", "Hotel Zephyr San Francisco", 28000, Finite(252000), 42,
          "Cancelamento gratuito até 48h antes", "USD", "San Francisco",
          Some("https://images.unsplash.com/photo-1571003123894-1f0594d2b5d9?w=400")),
    Hotel("sfo-003", "The Ritz-Carlton San Francisco", 65000, Finite(585000), 48,
          "Não reembolsável", "USD", "San Francisco",
          Some("https://images.unsplash.com/photo-1551882547-ff40c63fe5fa?w=400"))
  ]

  /** `calculateNights`: whole days from check-in to check-out (the ceiling
      of an exact day count is that count); NaN when either text is not a
      date. */
  function Nights(checkin: CalendarDate, checkout: CalendarDate): (n: Num)
    ensures n.Finite? <==> checkin.Day? && checkout.Day?
    ensures n.Finite? ==> checkin.n + n.v == checkout.n
  {
    if checkin.Day? && checkout.Day? then Finite(checkout.n - checkin.n) else NaN
  }

  /** `nightly * nights` for a count that may be NaN. */
  function Times(amount: int, n: Num): (r: Num)
    ensures n.NaN? <==> r.NaN?
    ensures n.Finite? ==> r.v == amount * n.v
  {
    match n
    case Finite(k) => Finite(amount * k)
    case NaN => NaN
  }

  /** The city test: either lowercased name contains the other. */
  predicate CityMatches(hotelCity: string, query: string)
  {
    Contains(Lower(hotelCity), Lower(query)) || Contains(Lower(query), Lower(hotelCity))
  }

  predicate BreakfastPolicy(policy: string)
  {
    Contains(Lower(policy), "café da manhã") || Contains(Lower(policy), "breakfast")
  }

  predicate RefundablePolicy(policy: string)
  {
    Contains(Lower(policy), "cancelamento gratuito") || Contains(Lower(policy), "free cancellation")
  }

  /** Whether a catalogue hotel survives the three filters. */
  predicate Passes(h: Hotel, p: ListHotelsParams)
  {
    CityMatches(h.city, p.city) &&
    (p.withBreakfast == Some(true) ==> BreakfastPolicy(h.policy)) &&
    (p.refundableOnly == Some(true) ==> RefundablePolicy(h.policy))
  }

  function Repriced(h: Hotel, nights: Num): (r: Hotel)
    ensures r.hotelId == h.hotelId && r.total == Times(h.nightly, nights)
  {
    h.(total := Times(h.nightly, nights))
  }

  /** The sort key: `sort((a, b) => b.rating - a.rating)` sorts ascending by
      minus the rating. */
  function NegRating(h: Hotel): int
  {
    -h.rating
  }

  /** The pipeline before the sort, in catalogue order. */
  function Filtered(db: seq<Hotel>, p: ListHotelsParams): seq<Hotel>
  {
    var nights := Nights(p.checkin, p.checkout);
    var r1 := Filter(db, (h: Hotel) => CityMatches(h.city, p.city));
    var r2 := Map(r1, (h: Hotel) => Repriced(h, nights));
    var r3 := if p.withBreakfast == Some(true) then Filter(r2, (h: Hotel) => BreakfastPolicy(h.policy)) else r2;
    if p.refundableOnly == Some(true) then Filter(r3, (h: Hotel) => RefundablePolicy(h.policy)) else r3
  }

  /** `listHotels(params)` over catalogue `db`. */
  function ListHotelsIn(db: seq<Hotel>, p: ListHotelsParams): seq<Hotel>
  {
    SortBy(Filtered(db, p), NegRating)
  }

  function ListHotels(p: ListHotelsParams): seq<Hotel>
  {
    ListHotelsIn(Database, p)
  }

  /** A re-priced hotel reaches the result iff it passes the filters: the
      filters read the city and policy, never the total. */
  lemma {:induction false} FilteredMembers(db: seq<Hotel>, p: ListHotelsParams)
    ensures forall x :: x in Filtered(db, p) ==>
              Passes(x, p) && x.total == Times(x.nightly, Nights(p.checkin, p.checkout)) &&
              exists h :: h in db && x == Repriced(h, Nights(p.checkin, p.checkout))
    ensures forall h :: h in db && Passes(h, p) ==> Repriced(h, Nights(p.checkin, p.checkout)) in Filtered(db, p)
  {
    var nights := Nights(p.checkin, p.checkout);
    var r1 := Filter(db, (h: Hotel) => CityMatches(h.city, p.city));
    var r2 := Map(r1, (h: Hotel) => Repriced(h, nights));
    FilterMembers(db, (h: Hotel) => CityMatches(h.city, p.city));
    var r3 := if p.withBreakfast == Some(true) then Filter(r2, (h: Hotel) => BreakfastPolicy(h.policy)) else r2;
    FilterMembers(r2, (h: Hotel) => BreakfastPolicy(h.policy));
    FilterMembers(r3, (h: Hotel) => RefundablePolicy(h.policy));
    forall x | x in r2 ensures exists h :: h in db && CityMatches(h.city, p.city) && x == Repriced(h, nights) {
      var i :| 0 <= i < |r2| && r2[i] == x;
      assert r1[i] in r1;
    }
    forall h | h in db && Passes(h, p) ensures Repriced(h, nights) in r2 {
      var i :| 0 <= i < |r1| && r1[i] == h;
      assert r2[i] == Repriced(h, nights);
    }
  }

  /** What `listHotels` promises: every result passes the city, breakfast
      and refund filters and is priced for the requested nights; every
      catalogue hotel that passes is in the result; the result is ordered by
      rating, best first, and hotels of equal rating keep catalogue order. */
  lemma ListHotelsSpec(db: seq<Hotel>, p: ListHotelsParams)
    ensures var r := ListHotelsIn(db, p);
            forall x :: x in r ==>
              Passes(x, p) && x.total == Times(x.nightly, Nights(p.checkin, p.checkout)) &&
              exists h :: h in db && x == Repriced(h, Nights(p.checkin, p.checkout))
    ensures var r := ListHotelsIn(db, p);
            forall h :: h in db && Passes(h, p) ==> Repriced(h, Nights(p.checkin, p.checkout)) in r
    ensures var r := ListHotelsIn(db, p);
            forall i, j :: 0 <= i < j < |r| ==> r[i].rating >= r[j].rating
    ensures forall k :: WithKey(ListHotelsIn(db, p), NegRating, k) == WithKey(Filtered(db, p), NegRating, k)
  {
    FilteredMembers(db, p);
    SortByProps(Filtered(db, p), NegRating);
    var r := ListHotelsIn(db, p);
    forall x | x in r ensures x in Filtered(db, p) {
      assert x in multiset(r);
    }
    forall x | x in Filtered(db, p) ensures x in r {
      assert x in multiset(Filtered(db, p));
    }
  }

  /** Filtering, re-pricing and sorting never repeat a hotel id when the
      catalogue has none repeated. */
  lemma ListHotelsDistinct(db: seq<Hotel>, p: ListHotelsParams)
    requires DistinctBy(db, (h: Hotel) => h.hotelId)
    ensures DistinctBy(ListHotelsIn(db, p), (h: Hotel) => h.hotelId)
  {
    var nights := Nights(p.checkin, p.checkout);
    var id := (h: Hotel) => h.hotelId;
    var r1 := Filter(db, (h: Hotel) => CityMatches(h.city, p.city));
    FilterDistinct(db, (h: Hotel) => CityMatches(h.city, p.city), id);
    var r2 := Map(r1, (h: Hotel) => Repriced(h, nights));
    MapDistinct(r1, (h: Hotel) => Repriced(h, nights), id);
    var r3 := if p.withBreakfast == Some(true) then Filter(r2, (h: Hotel) => BreakfastPolicy(h.policy)) else r2;
    FilterDistinct(r2, (h: Hotel) => BreakfastPolicy(h.policy), id);
    FilterDistinct(r3, (h: Hotel) => RefundablePolicy(h.policy), id);
    SortDistinct(Filtered(db, p), NegRating, id);
  }

  /** The catalogue's ids are distinct, so no search result lists a hotel
      twice. */
  lemma DatabaseIdsDistinct()
    ensures DistinctBy(Database, (h: Hotel) => h.hotelId)
  {
  }

  /** The total is the nightly rate times the nights, whatever the number of
      rooms. */
  lemma TotalIgnoresRooms(db: seq<Hotel>, p: ListHotelsParams, rooms: int)
    ensures ListHotelsIn(db, p.(rooms := rooms)) == ListHotelsIn(db, p)
  {
  }

  /** The filters use the same phrases as the UI tags, so every hotel a
      breakfast search returns shows the breakfast tag, and every hotel a
      refundable search returns shows the free-cancellation tag. */
  lemma FiltersMatchTags(db: seq<Hotel>, p: ListHotelsParams)
    ensures p.withBreakfast == Some(true) ==>
              forall x :: x in ListHotelsIn(db, p) ==> HotelPolicyTags.BreakfastTag in HotelPolicyTags.Tags(x.policy)
    ensures p.refundableOnly == Some(true) ==>
              forall x :: x in ListHotelsIn(db, p) ==> HotelPolicyTags.FreeCancellationTag in HotelPolicyTags.Tags(x.policy)
  {
    ListHotelsSpec(db, p);
  }
}
