/**
 * The search-page addresses: `BookingScraper._build_search_url` and the
 * two `URLBuilder` helpers.
 */
module SearchUrls {
  import opened Basics
  import opened Text
  import opened Dates
  import opened UrlEncoding

  const BookingBase: string := "https://www.booking.com"
  const SearchPath: string := "/searchresults.html?"

  /** The booking search parameters, in the dictionary's insertion order. */
  function BookingParams(location: string, checkIn: string, checkOut: string, adults: int, rooms: int): (ps: seq<Param>)
    ensures |ps| == 6
  {
    [ Param("ss", location), Param("checkin", checkIn), Param("checkout", checkOut),
      Param("group_adults", IntToString(adults)), Param("no_rooms", IntToString(rooms)),
      Param("group_children", "0") ]
  }

  /** `BookingScraper._build_search_url`: two adults, one room, no children, dates as YYYY-MM-DD. */
  function BuildSearchUrl(base: string, location: string, checkIn: Date, checkOut: Date): (url: string)
    requires ValidDate(checkIn) && ValidDate(checkOut)
    ensures StartsWith(url, base + SearchPath)
  {
    var url := base + SearchPath + UrlEncode(BookingParams(location, Iso(checkIn), Iso(checkOut), 2, 1));
    assert url[..|base + SearchPath|] == base + SearchPath;
    url
  }

  /** `URLBuilder.build_booking_search_url`. */
  function BuildBookingSearchUrl(location: string, checkIn: string, checkOut: string, adults: int, rooms: int): (url: string)
    ensures StartsWith(url, BookingBase + SearchPath)
  {
    var url := BookingBase + SearchPath + UrlEncode(BookingParams(location, checkIn, checkOut, adults, rooms));
    assert url[..|BookingBase + SearchPath|] == BookingBase + SearchPath;
    url
  }

  /**
   * The query of the scraper's search address carries exactly the six
   * parameters, in order, with the location unchanged and the dates in
   * ISO form.
   */
  lemma SearchUrlCarriesParams(base: string, location: string, checkIn: Date, checkOut: Date)
    requires ValidDate(checkIn) && ValidDate(checkOut)
    ensures ParseQuery(BuildSearchUrl(base, location, checkIn, checkOut)[|base + SearchPath|..]) ==
      Some([ Param("ss", location), Param("checkin", Iso(checkIn)), Param("checkout", Iso(checkOut)),
             Param("group_adults", "2"), Param("no_rooms", "1"), Param("group_children", "0") ])
  {
    var ps := BookingParams(location, Iso(checkIn), Iso(checkOut), 2, 1);
    var url := BuildSearchUrl(base, location, checkIn, checkOut);
    assert url[|base + SearchPath|..] == UrlEncode(ps);
    ParseQueryUrlEncode(ps);
  }

  /**
   * The query of the helper's Booking.com address carries the six
   * parameters, in order, with every value as given and the counts in
   * decimal, for any location, date texts, adults and rooms.
   */
  lemma BookingSearchUrlCarriesParams(location: string, checkIn: string, checkOut: string, adults: int, rooms: int)
    ensures ParseQuery(BuildBookingSearchUrl(location, checkIn, checkOut, adults, rooms)[|BookingBase + SearchPath|..]) ==
      Some([ Param("ss", location), Param("checkin", checkIn), Param("checkout", checkOut),
             Param("group_adults", IntToString(adults)), Param("no_rooms", IntToString(rooms)),
             Param("group_children", "0") ])
  {
    var ps := BookingParams(location, checkIn, checkOut, adults, rooms);
    var url := BuildBookingSearchUrl(location, checkIn, checkOut, adults, rooms);
    assert url[|BookingBase + SearchPath|..] == UrlEncode(ps);
    ParseQueryUrlEncode(ps);
  }

  /** Helper addresses that differ in any value, the counts included, are different. */
  lemma BookingSearchUrlInjective(l1: string, in1: string, out1: string, a1: int, r1: int,
                                  l2: string, in2: string, out2: string, a2: int, r2: int)
    requires BuildBookingSearchUrl(l1, in1, out1, a1, r1) == BuildBookingSearchUrl(l2, in2, out2, a2, r2)
    ensures l1 == l2 && in1 == in2 && out1 == out2 && a1 == a2 && r1 == r2
  {
    BookingSearchUrlCarriesParams(l1, in1, out1, a1, r1);
    BookingSearchUrlCarriesParams(l2, in2, out2, a2, r2);
    IntToStringInjective(a1, a2);
    IntToStringInjective(r1, r2);
  }

  /** Searches that differ in place or dates get different addresses. */
  lemma SearchUrlInjective(base: string, l1: string, in1: Date, out1: Date, l2: string, in2: Date, out2: Date)
    requires ValidDate(in1) && ValidDate(out1) && ValidDate(in2) && ValidDate(out2)
    requires BuildSearchUrl(base, l1, in1, out1) == BuildSearchUrl(base, l2, in2, out2)
    ensures l1 == l2 && in1 == in2 && out1 == out2
  {
    SearchUrlCarriesParams(base, l1, in1, out1);
    SearchUrlCarriesParams(base, l2, in2, out2);
    IsoInjective(in1, in2);
    IsoInjective(out1, out2);
  }

  /** With its defaults and ISO dates, the helper builds the scraper's address for booking.com. */
  lemma BuilderMatchesScraper(location: string, checkIn: Date, checkOut: Date)
    requires ValidDate(checkIn) && ValidDate(checkOut)
    ensures BuildBookingSearchUrl(location, Iso(checkIn), Iso(checkOut), 2, 1) == BuildSearchUrl(BookingBase, location, checkIn, checkOut)
  {
  }

  // ---- URLBuilder.build_agoda_search_url ----

  /** The Agoda address puts the three values into the query as they are, without escaping. */
  function BuildAgodaSearchUrl(location: string, checkIn: string, checkOut: string): (url: string)
    ensures StartsWith(url, "https://www.agoda.com/search?city=")
  {
    var url := "https://www.agoda.com/search?city=" + location + "&checkIn=" + checkIn + "&checkOut=" + checkOut;
    assert url[..|"https://www.agoda.com/search?city="|] == "https://www.agoda.com/search?city=";
    url
  }

  /** The part of the Agoda query after the location. */
  function AgodaDates(checkIn: string, checkOut: string): string {
    ("checkIn=" + checkIn) + ['&'] + ("checkOut=" + checkOut)
  }

  /** The query of the Agoda address, everything after `?`: the location piece, `&`, the dates. */
  lemma AgodaQueryShape(location: string, checkIn: string, checkOut: string)
    ensures BuildAgodaSearchUrl(location, checkIn, checkOut)[|"https://www.agoda.com/search?"|..]
      == ("city=" + location) + ['&'] + AgodaDates(checkIn, checkOut)
  {
  }

  lemma AgodaDatesPieces(checkIn: string, checkOut: string)
    requires '&' !in checkIn && '&' !in checkOut
    ensures Split(AgodaDates(checkIn, checkOut), '&') == ["checkIn=" + checkIn, "checkOut=" + checkOut]
  {
    SplitWhole("checkOut=" + checkOut, '&');
    SplitAfterPiece("checkIn=" + checkIn, '&', "checkOut=" + checkOut);
  }

  /** Without `&` in the values, the query splits into the three pieces `city`, `checkIn`, `checkOut`. */
  lemma AgodaQueryPieces(location: string, checkIn: string, checkOut: string)
    requires '&' !in location && '&' !in checkIn && '&' !in checkOut
    ensures Split(BuildAgodaSearchUrl(location, checkIn, checkOut)[|"https://www.agoda.com/search?"|..], '&') ==
      ["city=" + location, "checkIn=" + checkIn, "checkOut=" + checkOut]
  {
    AgodaQueryShape(location, checkIn, checkOut);
    AgodaDatesPieces(checkIn, checkOut);
    SplitAfterPiece("city=" + location, '&', AgodaDates(checkIn, checkOut));
  }

  /** The location piece of a query, holding one `&`, splits in two before the rest. */
  lemma AgodaLocationPieces(a: string, b: string, rest: string)
    requires '&' !in a && '&' !in b
    ensures Split(("city=" + (a + "&" + b)) + ['&'] + rest, '&') == ["city=" + a, b] + Split(rest, '&')
  {
    assert ("city=" + (a + "&" + b)) + ['&'] + rest == ("city=" + a) + ['&'] + (b + ['&'] + rest);
    SplitAfterPiece(b, '&', rest);
    SplitAfterPiece("city=" + a, '&', b + ['&'] + rest);
  }

  /** A location containing `&` is cut short: its tail becomes a separate query piece. */
  lemma AgodaAmpersandSplitsLocation(a: string, b: string, checkIn: string, checkOut: string)
    requires '&' !in a && '&' !in b && '&' !in checkIn && '&' !in checkOut
    ensures Split(BuildAgodaSearchUrl(a + "&" + b, checkIn, checkOut)[|"https://www.agoda.com/search?"|..], '&') ==
      ["city=" + a, b, "checkIn=" + checkIn, "checkOut=" + checkOut]
  {
    AgodaQueryShape(a + "&" + b, checkIn, checkOut);
    AgodaLocationPieces(a, b, AgodaDates(checkIn, checkOut));
    AgodaDatesPieces(checkIn, checkOut);
  }
}
