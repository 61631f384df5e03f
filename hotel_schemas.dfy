/** The hotel records of `src/agent/schemas/hotels.ts`. Prices are integer
    cents, ratings integer tenths of a star; a total is a `Num` because it is
    recomputed from dates that may be invalid. */
module HotelSchemas {
  import opened Wrappers

  /** `listHotelsSchema`: city and both dates are required. */
  datatype ListHotelsParams = ListHotelsParams(
    city: string,
    checkin: CalendarDate,
    checkout: CalendarDate,
    rooms: int,
    withBreakfast: Option<bool>,
    refundableOnly: Option<bool>)

  /** `rooms: z.number().min(1).max(10)`. */
  predicate ValidListHotelsParams(p: ListHotelsParams)
  {
    1 <= p.rooms <= 10
  }

  /** `hotelSchema`: every field is required except `image`. */
  datatype Hotel = Hotel(
    hotelId: string,
    name: string,
    nightly: int,
    total: Num,
    rating: int,
    policy: string,
    currency: string,
    city: string,
    image: Option<string>)

  /** `hotelSearchExtractionSchema`: only the city is required. */
  datatype HotelSearchExtraction = HotelSearchExtraction(
    city: Option<string>,
    checkin: Option<CalendarDate>,
    checkout: Option<CalendarDate>,
    rooms: Option<int>,
    withBreakfast: Option<bool>,
    refundableOnly: Option<bool>)

  predicate ValidHotelSearchExtraction(x: HotelSearchExtraction)
  {
    x.city.Some?
  }
}
