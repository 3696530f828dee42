/**
 * `BookingScraper`: turning the cards of a Booking.com results page into
 * `(hotel_name, price, currency, source_site, details_url)` tuples.
 */
module BookingScraper {
  import opened Basics
  import opened Text
  import opened Dates
  import opened PriceParsing
  import opened Extraction
  import opened Seqs
  import SearchUrls

  const BaseUrl: string := "https://www.booking.com"
  const SourceSite: string := "Booking.com"

  const CardSelectors: seq<string> :=
    ["[data-testid='property-card']", ".sr_property_block", ".c-sr-property-block", ".property-card"]
  const NameSelectors: seq<string> :=
    ["[data-testid='title']", ".sr-hotel__name", ".property-name", "h3 a", ".c-sr-property-block__title"]
  const PriceSelectors: seq<string> :=
    ["[data-testid='price-and-discounted-price']", ".bui-price-display__value", ".sr-price__value",
     ".property-price", ".c-sr-property-block__price"]
  const LinkSelectors: seq<string> :=
    ["a[data-testid='title-link']", ".sr-hotel__name a", ".property-name a", "h3 a"]

  /** One scraped hotel: the tuple the scraper returns. */
  datatype HotelTuple = HotelTuple(hotelName: string, price: real, currency: string, sourceSite: string, detailsUrl: string)

  /** The element under `sel` holds a text that parses to the price and currency `v`. */
  predicate PriceUnder(card: Card, sel: string, v: (real, string)) {
    sel in card && ParsePriceBooking(card[sel].text) == Parsed(Some(v.0), v.1)
  }

  /** The element under `sel` holds a text that parses to a truthy price. */
  predicate PricedUnder(card: Card, sel: string) {
    sel in card && TruthyPrice(ParsePriceBooking(card[sel].text))
  }

  /** `j` is the first selector whose element parses to a truthy price. */
  predicate FirstPricedAt(card: Card, selectors: seq<string>, j: int) {
    0 <= j < |selectors| && PricedUnder(card, selectors[j])
    && forall i :: 0 <= i < j ==> !PricedUnder(card, selectors[i])
  }

  /** Behind an unpriced first selector, the first priced one is one further along. */
  lemma FirstPricedAtNext(card: Card, selectors: seq<string>, j: int)
    requires |selectors| > 0 && !PricedUnder(card, selectors[0])
    ensures FirstPricedAt(card, selectors[1..], j) ==> FirstPricedAt(card, selectors, j + 1)
  {
    if FirstPricedAt(card, selectors[1..], j) {
      assert selectors[j + 1] == selectors[1..][j];
      forall i | 0 <= i < j + 1
        ensures !PricedUnder(card, selectors[i])
      {
        if i > 0 {
          assert selectors[i] == selectors[1..][i - 1];
        }
      }
    }
  }

  /**
   * `_extract_price_info`: the first selector whose element's text parses
   * to a truthy price. A missing element, an unparseable text or a zero
   * price moves on to the next selector.
   */
  function ExtractPriceInfo(card: Card, selectors: seq<string>): (r: Option<(real, string)>)
    ensures r.Some? ==> r.value.0 > 0.0
    ensures r.Some? ==> exists j :: FirstPricedAt(card, selectors, j) && PriceUnder(card, selectors[j], r.value)
    ensures r.None? ==> forall j :: 0 <= j < |selectors| ==> !PricedUnder(card, selectors[j])
  {
    if |selectors| == 0 then None
    else if PricedUnder(card, selectors[0]) then
      var p := ParsePriceBooking(card[selectors[0]].text);
      assert PriceUnder(card, selectors[0], (p.price.value, p.currency));
      assert FirstPricedAt(card, selectors, 0);
      Some((p.price.value, p.currency))
    else
      var rest := ExtractPriceInfo(card, selectors[1..]);
      assert rest.Some? ==> exists j :: FirstPricedAt(card, selectors, j) && PriceUnder(card, selectors[j], rest.value) by {
        if rest.Some? {
          var j :| FirstPricedAt(card, selectors[1..], j) && PriceUnder(card, selectors[1..][j], rest.value);
          FirstPricedAtNext(card, selectors, j);
          assert selectors[j + 1] == selectors[1..][j];
        }
      }
      assert forall j :: 1 <= j < |selectors| ==> selectors[j] == selectors[1..][j - 1];
      rest
  }

  /** An `href` the link loop accepts: relative to the site, or already absolute. */
  predicate UsableHref(h: string) {
    h != "" && (StartsWith(h, "/") || StartsWith(h, "http"))
  }

  predicate HasUsableLink(card: Card, sel: string) {
    sel in card && card[sel].href.Some? && UsableHref(card[sel].href.value)
  }

  /** The address an accepted `href` stands for. */
  function Resolve(base: string, h: string): string {
    if StartsWith(h, "/") then base + h else h
  }

  /**
   * `_extract_details_url`: the first link whose `href` is relative
   * (joined to the base) or starts with `http` (kept as it is); any other
   * `href` is passed over; without one, the base's `/hotels` page.
   */
  function ExtractDetailsUrl(card: Card, selectors: seq<string>, base: string): (url: string)
    ensures (forall j :: 0 <= j < |selectors| ==> !HasUsableLink(card, selectors[j])) ==> url == base + "/hotels"
    ensures |selectors| > 0 && HasUsableLink(card, selectors[0]) ==> url == Resolve(base, card[selectors[0]].href.value)
  {
    if |selectors| == 0 then base + "/hotels"
    else if HasUsableLink(card, selectors[0]) then Resolve(base, card[selectors[0]].href.value)
    else ExtractDetailsUrl(card, selectors[1..], base)
  }

  /** Links before the first usable one do not matter. */
  lemma {:induction false} DetailsUrlFirstUsable(card: Card, selectors: seq<string>, base: string, k: nat)
    requires k < |selectors| && HasUsableLink(card, selectors[k])
    requires forall j :: 0 <= j < k ==> !HasUsableLink(card, selectors[j])
    ensures ExtractDetailsUrl(card, selectors, base) == Resolve(base, card[selectors[k]].href.value)
    decreases k
  {
    if k > 0 {
      DetailsUrlFirstUsable(card, selectors[1..], base, k - 1);
    }
  }

  /** A relative `href` is joined to the base, an absolute one is returned unchanged. */
  lemma ResolveCases(base: string, h: string)
    requires UsableHref(h)
    ensures StartsWith(h, "/") ==> Resolve(base, h) == base + h
    ensures !StartsWith(h, "/") ==> Resolve(base, h) == h && StartsWith(Resolve(base, h), "http")
  {
  }

  /**
   * `_extract_hotel_info`: a tuple only when both a name and a price were
   * found.
   */
  function ExtractHotelInfo(card: Card): (r: Option<HotelTuple>)
    ensures r.Some? <==> ExtractText(card, NameSelectors).Some? && ExtractPriceInfo(card, PriceSelectors).Some?
    ensures r.Some? ==> r.value.hotelName != "" && r.value.price > 0.0 && r.value.sourceSite == SourceSite
    ensures r.Some? ==> r.value.hotelName == ExtractText(card, NameSelectors).value
    ensures r.Some? ==> (r.value.price, r.value.currency) == ExtractPriceInfo(card, PriceSelectors).value
    ensures r.Some? ==> r.value.detailsUrl == ExtractDetailsUrl(card, LinkSelectors, BaseUrl)
  {
    match ExtractText(card, NameSelectors)
    case None => None
    case Some(name) =>
      match ExtractPriceInfo(card, PriceSelectors)
      case None => None
      case Some(pc) => Some(HotelTuple(name, pc.0, pc.1, SourceSite, ExtractDetailsUrl(card, LinkSelectors, BaseUrl)))
  }

  /** The tuples of the cards that yield one, in card order. */
  function ExtractAll(cards: seq<Card>): (r: seq<HotelTuple>)
    ensures |r| <= |cards|
  {
    FilterMap(cards, ExtractHotelInfo)
  }

  /** Every tuple comes from one of the cards, so it has a name, a positive price and the Booking.com source. */
  lemma ExtractAllWellFormed(cards: seq<Card>, k: nat)
    requires k < |ExtractAll(cards)|
    ensures exists i :: 0 <= i < |cards| && ExtractHotelInfo(cards[i]) == Some(ExtractAll(cards)[k])
    ensures ExtractAll(cards)[k].hotelName != "" && ExtractAll(cards)[k].price > 0.0
    ensures ExtractAll(cards)[k].sourceSite == SourceSite
  {
    FilterMapFrom(cards, ExtractHotelInfo, k);
  }

  /** A card with a name and a price is never lost. */
  lemma ExtractAllKeeps(cards: seq<Card>, i: nat)
    requires i < |cards| && ExtractHotelInfo(cards[i]).Some?
    ensures ExtractHotelInfo(cards[i]).value in ExtractAll(cards)
  {
    FilterMapKeeps(cards, ExtractHotelInfo, i);
  }

  /**
   * `_parse_search_results`: the cards of the first card selector that
   * finds any, walked in order, each card's tuple appended and cards
   * without one skipped.
   */
  method ParseSearchResults(page: Page) returns (results: seq<HotelTuple>)
    ensures results == ExtractAll(FindHotelCards(page, CardSelectors))
  {
    results := CollectPresent(FindHotelCards(page, CardSelectors), ExtractHotelInfo);
  }

  /**
   * `scrape_hotels`: visit the search address; no tuples when the page
   * does not load or the results do not appear. `visit` stands for the
   * browser: what it finds at an address.
   */
  method ScrapeHotels(visit: string -> PageOutcome, location: string, checkIn: Date, checkOut: Date) returns (results: seq<HotelTuple>)
    requires ValidDate(checkIn) && ValidDate(checkOut)
    ensures match visit(SearchUrls.BuildSearchUrl(BaseUrl, location, checkIn, checkOut))
      case Loaded(page) => results == ExtractAll(FindHotelCards(page, CardSelectors))
      case _ => results == []
  {
    var url := SearchUrls.BuildSearchUrl(BaseUrl, location, checkIn, checkOut);
    match visit(url)
    case Loaded(page) =>
      results := ParseSearchResults(page);
    case _ =>
      results := [];
  }
}
