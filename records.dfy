/**
 * The two stored record shapes, `SearchRequest` and `HotelPrice`.
 * Timestamps are seconds since the epoch, as exact reals.
 */
module Records {
  import opened Basics
  import opened Dates

  datatype SearchRequest = SearchRequest(
    id: int,
    location: string,
    checkIn: Date,
    checkOut: Date,
    createdAt: real,
    isTracking: bool,
    lastCrawledAt: Option<real>)

  datatype HotelPrice = HotelPrice(
    searchRequestId: int,
    hotelName: string,
    price: real,
    currency: string,
    sourceSite: string,
    crawlTimestamp: real,
    detailsUrl: Option<string>)

  /** `ScrapingResult`: one hotel as a site scraper returns it. */
  datatype ScrapingResult = ScrapingResult(
    hotelName: string,
    price: real,
    currency: string,
    sourceSite: string,
    detailsUrl: string,
    roomType: Option<string>,
    rating: Option<real>,
    location: Option<string>)
}
