/**
 * `EnhancedScraperService`: the per-site loop of one search request, the
 * dispatch on the site name, the Booking.com results parser with its
 * ten-card cap, the demonstration data of the sites without a scraper,
 * and the request-id to results map of a whole run.
 *
 * The browser is a class with an open flag and a `visit` function (what
 * it finds at an address); the random draws of the demonstration data are
 * parameters; the thread pool is a sequential loop.
 */
module EnhancedScraper {
  import opened Basics
  import opened Text
  import opened Dates
  import opened PriceParsing
  import opened Extraction
  import opened Seqs
  import opened Records
  import opened Storage
  import SearchUrls

  /** The one combined selector `_parse_booking_results` selects cards with. */
  const CardSelector: string := "[data-testid='property-card'], .sr_property_block"
  const TitleSelectors: seq<string> := ["[data-testid='title']", ".sr-hotel__name", "h3"]
  const PriceTextSelectors: seq<string> :=
    ["[data-testid='price-and-discounted-price']", ".bui-price-display__value", ".sr-price"]
  /** Only the first ten cards of a page are looked at. */
  const MaxCards: nat := 10
  const BookingSite: string := "Booking.com"
  const ExampleDetailsUrl: string := "https://www.booking.com/hotel-example"
  /** `database.batch_size` when the configuration does not set it. */
  const DefaultBatchSize: int := 100

  /** Whether the stored dates of a request are real calendar dates. */
  predicate ValidRequest(request: SearchRequest) {
    ValidDate(request.checkIn) && ValidDate(request.checkOut)
  }

  /** A stored search request: its dates are `date` objects, so they are real calendar dates. */
  type Request = r: SearchRequest | ValidRequest(r)
    witness SearchRequest(0, "", Date(2000, 1, 1), Date(2000, 1, 2), 0.0, false, None)

  /**
   * One card of `_parse_booking_results`: a result only when the card has a
   * title, a price text, and the text parses to a truthy price.
   */
  function CardResult(card: Card): (r: Option<ScrapingResult>)
    ensures r.Some? <==> (ExtractText(card, TitleSelectors).Some? && ExtractText(card, PriceTextSelectors).Some?
      && TruthyPrice(ParsePriceEnhanced(ExtractText(card, PriceTextSelectors).value)))
    ensures r.Some? ==> r.value.hotelName == ExtractText(card, TitleSelectors).value
    ensures r.Some? ==> ParsePriceEnhanced(ExtractText(card, PriceTextSelectors).value) == Parsed(Some(r.value.price), r.value.currency)
    ensures r.Some? ==> r.value.hotelName != "" && r.value.price > 0.0
    ensures r.Some? ==> r.value.sourceSite == BookingSite && r.value.detailsUrl == ExampleDetailsUrl
  {
    match ExtractText(card, TitleSelectors)
    case None => None
    case Some(name) =>
      match ExtractText(card, PriceTextSelectors)
      case None => None
      case Some(text) =>
        var p := ParsePriceEnhanced(text);
        if TruthyPrice(p) then Some(ScrapingResult(name, p.price.value, p.currency, BookingSite, ExampleDetailsUrl, None, None, None))
        else None
  }

  /** `hotel_cards[:10]`. */
  function Capped(cards: seq<Card>): (r: seq<Card>)
    ensures |r| <= |cards| && |r| <= MaxCards && r == cards[..|r|]
    ensures |cards| <= MaxCards ==> r == cards
  {
    if |cards| <= MaxCards then cards else cards[..MaxCards]
  }

  /** `soup.select(CardSelector)`: the cards the combined selector finds. */
  function PageCards(page: Page): seq<Card> {
    if CardSelector in page then page[CardSelector] else []
  }

  /** What `_parse_booking_results` returns for a page. */
  function BookingResults(page: Page): seq<ScrapingResult> {
    FilterMap(Capped(PageCards(page)), CardResult)
  }

  /** Whatever is collected from the capped cards comes from one of the first ten. */
  lemma CappedFrom<B>(cards: seq<Card>, f: Card -> Option<B>, k: nat)
    requires k < |FilterMap(Capped(cards), f)|
    ensures exists i :: 0 <= i < MaxCards && i < |cards| && f(cards[i]) == Some(FilterMap(Capped(cards), f)[k])
  {
    var capped := Capped(cards);
    FilterMapFrom(capped, f, k);
    var i :| 0 <= i < |capped| && f(capped[i]) == Some(FilterMap(capped, f)[k]);
    assert capped[i] == cards[i];
  }

  /** At most ten results, each from one of the first ten cards, each with a name and a positive price. */
  lemma BookingResultsFromFirstCards(page: Page, k: nat)
    requires k < |BookingResults(page)|
    ensures |BookingResults(page)| <= MaxCards
    ensures exists i :: 0 <= i < MaxCards && i < |PageCards(page)| && CardResult(PageCards(page)[i]) == Some(BookingResults(page)[k])
    ensures BookingResults(page)[k].hotelName != "" && BookingResults(page)[k].price > 0.0
    ensures BookingResults(page)[k].sourceSite == BookingSite
  {
    CappedFrom(PageCards(page), CardResult, k);
  }

  /** Every one of the first ten cards that yields a result contributes it. */
  lemma BookingResultsKeeps(page: Page, i: nat)
    requires i < MaxCards && i < |PageCards(page)| && CardResult(PageCards(page)[i]).Some?
    ensures CardResult(PageCards(page)[i]).value in BookingResults(page)
  {
    var capped := Capped(PageCards(page));
    assert capped[i] == PageCards(page)[i];
    FilterMapKeeps(capped, CardResult, i);
  }

  /**
   * `_parse_booking_results`: the first ten cards of the page walked in
   * order, each card's result appended and cards without one skipped.
   */
  method ParseBookingResults(page: Page) returns (results: seq<ScrapingResult>)
    ensures results == BookingResults(page)
  {
    results := CollectPresent(Capped(PageCards(page)), CardResult);
  }

  /** What `_scrape_booking_enhanced` returns once the browser has visited the search address. */
  function BookingOutcome(outcome: PageOutcome): (r: seq<ScrapingResult>)
    ensures outcome.Loaded? ==> r == BookingResults(outcome.page)
    ensures !outcome.Loaded? ==> r == []
  {
    match outcome
    case Loaded(page) => BookingResults(page)
    case _ => []
  }

  /** The random draws behind one demonstration hotel. */
  datatype FakeDraw = FakeDraw(price: real, rating: real)

  /** `random.uniform(1500, 5000)` and `random.uniform(3.5, 4.8)`. */
  predicate ValidDraw(d: FakeDraw) {
    1500.0 <= d.price <= 5000.0 && 3.5 <= d.rating <= 4.8
  }

  /** Three draws, one per demonstration hotel. */
  predicate ValidDraws(draws: seq<FakeDraw>) {
    |draws| == 3 && forall i :: 0 <= i < 3 ==> ValidDraw(draws[i])
  }

  /** The draws of one call of `_generate_enhanced_fake_data`. */
  type Draws = d: seq<FakeDraw> | ValidDraws(d)
    witness [FakeDraw(1500.0, 3.5), FakeDraw(1500.0, 3.5), FakeDraw(1500.0, 3.5)]

  const FakeHotels: seq<string> := ["豪華商務飯店", "市中心精品旅館", "度假村大酒店"]
  const FakeRoomType: string := "標準雙人房"

  function FakeResult(hotel: string, siteName: string, baseUrl: Option<string>, d: FakeDraw): ScrapingResult {
    ScrapingResult(hotel + " - " + siteName, d.price, "TWD", siteName, baseUrl.GetOr("") + "/hotel-example",
      Some(FakeRoomType), Some(d.rating), None)
  }

  /**
   * `_generate_enhanced_fake_data`: three hotels named after the site,
   * priced in Taiwan dollars within the drawn range.
   */
  function FakeData(siteName: string, baseUrl: Option<string>, draws: Draws): (r: seq<ScrapingResult>)
    ensures |r| == 3
    ensures forall i :: 0 <= i < 3 ==> EndsWith(r[i].hotelName, " - " + siteName)
    ensures forall i :: 0 <= i < 3 ==> r[i].currency == "TWD" && r[i].sourceSite == siteName
    ensures forall i :: 0 <= i < 3 ==> r[i].detailsUrl == baseUrl.GetOr("") + "/hotel-example"
    ensures forall i :: 0 <= i < 3 ==> 1500.0 <= r[i].price <= 5000.0 && r[i].hotelName != ""
    ensures forall i :: 0 <= i < 3 ==> r[i].rating.Some? && 3.5 <= r[i].rating.value <= 4.8
  {
    [FakeResult(FakeHotels[0], siteName, baseUrl, draws[0]),
     FakeResult(FakeHotels[1], siteName, baseUrl, draws[1]),
     FakeResult(FakeHotels[2], siteName, baseUrl, draws[2])]
  }

  /** One entry of `target_sites`; a missing `name` or `base_url` is `None`. */
  datatype SiteConfig = SiteConfig(name: Option<string>, enabled: bool, baseUrl: Option<string>)

  /** The three names with a dedicated branch, lower-cased. */
  predicate KnownSite(key: string) {
    key == "booking.com" || key == "agoda" || key == "hotels.com"
  }

  /**
   * `_scrape_site_enhanced`: dispatch on the lower-cased site name. A
   * missing name makes `.lower()` raise, which gives no results.
   */
  function ScrapeSite(visit: string -> PageOutcome, site: SiteConfig, request: Request, draws: Draws): (r: seq<ScrapingResult>)
    ensures site.name.None? ==> r == []
    ensures site.name.Some? && Lower(site.name.value) == "booking.com" ==>
      r == BookingOutcome(visit(SearchUrls.BuildSearchUrl(site.baseUrl.GetOr(SearchUrls.BookingBase),
        request.location, request.checkIn, request.checkOut)))
    ensures site.name.Some? && Lower(site.name.value) == "agoda" ==> r == FakeData("Agoda", site.baseUrl, draws)
    ensures site.name.Some? && Lower(site.name.value) == "hotels.com" ==> r == FakeData("Hotels.com", site.baseUrl, draws)
    ensures site.name.Some? && !KnownSite(Lower(site.name.value)) ==> r == FakeData(site.name.value, site.baseUrl, draws)
    ensures |r| <= MaxCards
  {
    match site.name
    case None => []
    case Some(name) =>
      var key := Lower(name);
      if key == "booking.com" then
        var base := site.baseUrl.GetOr(SearchUrls.BookingBase);
        BookingOutcome(visit(SearchUrls.BuildSearchUrl(base, request.location, request.checkIn, request.checkOut)))
      else if key == "agoda" then FakeData("Agoda", site.baseUrl, draws)
      else if key == "hotels.com" then FakeData("Hotels.com", site.baseUrl, draws)
      else FakeData(name, site.baseUrl, draws)
  }

  /** Every result of a site has a name and a positive price. */
  lemma ScrapeSiteWellFormed(visit: string -> PageOutcome, site: SiteConfig, request: Request, draws: Draws, k: nat)
    requires k < |ScrapeSite(visit, site, request, draws)|
    ensures ScrapeSite(visit, site, request, draws)[k].hotelName != ""
    ensures ScrapeSite(visit, site, request, draws)[k].price > 0.0
  {
    var key := Lower(site.name.value);
    if key == "booking.com" {
      var base := site.baseUrl.GetOr(SearchUrls.BookingBase);
      var outcome := visit(SearchUrls.BuildSearchUrl(base, request.location, request.checkIn, request.checkOut));
      BookingResultsFromFirstCards(outcome.page, k);
    }
  }

  /** The dedicated branches do not depend on how the configuration capitalises the name. */
  lemma ScrapeSiteIgnoresCase(visit: string -> PageOutcome, a: SiteConfig, b: SiteConfig, request: Request, draws: Draws)
    requires a.name.Some? && b.name.Some? && a.baseUrl == b.baseUrl
    requires Lower(a.name.value) == Lower(b.name.value) && KnownSite(Lower(a.name.value))
    ensures ScrapeSite(visit, a, request, draws) == ScrapeSite(visit, b, request, draws)
  {
  }

  /** One entry of `target_sites` together with the draws its demonstration data would use. */
  datatype SiteRun = SiteRun(site: SiteConfig, draws: Draws)

  /** What one entry of `target_sites` adds to the request's results: nothing when it is disabled. */
  function SiteContribution(visit: string -> PageOutcome, request: Request): SiteRun -> seq<ScrapingResult> {
    (run: SiteRun) => if run.site.enabled then ScrapeSite(visit, run.site, request, run.draws) else []
  }

  /** The results of the enabled sites, concatenated in configuration order. */
  function SitesResults(visit: string -> PageOutcome, runs: seq<SiteRun>, request: Request): seq<ScrapingResult> {
    ConcatMap(runs, SiteContribution(visit, request))
  }

  /**
   * Each site's results are independent of the others: the results of a
   * configuration are those of its two halves, one after the other. So a
   * site that fails (no name, a page that does not load) removes only its
   * own results and later sites still run.
   */
  lemma SitesResultsAppend(visit: string -> PageOutcome, a: seq<SiteRun>, b: seq<SiteRun>, request: Request)
    ensures SitesResults(visit, a + b, request) == SitesResults(visit, a, request) + SitesResults(visit, b, request)
  {
    ConcatMapAppend(a, b, SiteContribution(visit, request));
  }

  /** Disabled sites contribute nothing. */
  lemma DisabledSitesSkipped(visit: string -> PageOutcome, runs: seq<SiteRun>, request: Request)
    requires forall i :: 0 <= i < |runs| ==> !runs[i].site.enabled
    ensures SitesResults(visit, runs, request) == []
  {
    ConcatMapEmpty(runs, SiteContribution(visit, request));
  }

  /** Every result of a request has a name and a positive price. */
  lemma SitesResultsWellFormed(visit: string -> PageOutcome, runs: seq<SiteRun>, request: Request, k: nat)
    requires k < |SitesResults(visit, runs, request)|
    ensures SitesResults(visit, runs, request)[k].hotelName != ""
    ensures SitesResults(visit, runs, request)[k].price > 0.0
  {
    var f := SiteContribution(visit, request);
    ConcatMapFrom(runs, f, k);
    var i, j :| 0 <= i < |runs| && 0 <= j < |f(runs[i])| && f(runs[i])[j] == SitesResults(visit, runs, request)[k];
    ScrapeSiteWellFormed(visit, runs[i].site, request, runs[i].draws, j);
  }

  /** The browser session of one request. */
  class Browser {
    var open: bool

    constructor()
      ensures open
    {
      open := true;
    }

    /** `driver.quit()`. */
    method Quit()
      modifies this
      ensures !open
    {
      open := false;
    }
  }

  /** Why a request's processing raised. */
  datatype ScrapeError = SaveFailed

  /**
   * `scrape_single_request`: with no browser, no results and no save.
   * Otherwise the enabled sites are scraped in order, the browser is quit,
   * and non-empty results are saved; a failed save raises.
   */
  method ScrapeSingleRequest(db: Database, browser: Browser?, visit: string -> PageOutcome, runs: seq<SiteRun>,
                             request: Request, batchSize: int, failure: Failure, now: real)
    returns (r: Result<seq<ScrapingResult>, ScrapeError>)
    modifies db, browser
    ensures browser == null ==> r == Ok([]) && unchanged(db)
    ensures browser != null ==> !browser.open
    ensures browser != null && SitesResults(visit, runs, request) == [] ==> r == Ok([]) && unchanged(db)
    ensures browser != null && SitesResults(visit, runs, request) != [] ==>
      var all := SitesResults(visit, runs, request);
      && r == (if SaveSucceeds(|all|, batchSize, failure) then Ok(all) else Err(SaveFailed))
      && db.rows == old(db.rows) + RowsOf(request.id, all[..CommittedCount(|all|, batchSize, failure)], now)
      && db.lastCrawled == if r.Ok? then old(db.lastCrawled)[request.id := now] else old(db.lastCrawled)
  {
    if browser == null {
      return Ok([]);
    }
    var all: seq<ScrapingResult> := [];
    var i := 0;
    while i < |runs|
      invariant 0 <= i <= |runs|
      invariant all == SitesResults(visit, runs[..i], request)
    {
      assert runs[..i + 1][..i] == runs[..i];
      if runs[i].site.enabled {
        all := all + ScrapeSite(visit, runs[i].site, request, runs[i].draws);
      }
      i := i + 1;
    }
    assert runs[..|runs|] == runs;
    browser.Quit();
    if all == [] {
      return Ok([]);
    }
    var saved := db.SaveResults(request.id, all, batchSize, failure, now);
    r := if saved then Ok(all) else Err(SaveFailed);
  }

  /** What a request contributes to the run's map: its results, or none when its processing raised. */
  function ResultsOf(outcome: Result<seq<ScrapingResult>, ScrapeError>): seq<ScrapingResult> {
    match outcome
    case Ok(rs) => rs
    case Err(_) => []
  }

  /** The run's map after the requests so far, entered in order. */
  function ResultsMap(requests: seq<SearchRequest>, outcome: SearchRequest -> Result<seq<ScrapingResult>, ScrapeError>): map<int, seq<ScrapingResult>>
    decreases |requests|
  {
    if |requests| == 0 then map[]
    else
      var n := |requests| - 1;
      ResultsMap(requests[..n], outcome)[requests[n].id := ResultsOf(outcome(requests[n]))]
  }

  /** Exactly one key per request id. */
  lemma {:induction false} ResultsMapKeys(requests: seq<SearchRequest>, outcome: SearchRequest -> Result<seq<ScrapingResult>, ScrapeError>)
    ensures ResultsMap(requests, outcome).Keys == set r | r in requests :: r.id
    decreases |requests|
  {
    if |requests| > 0 {
      var n := |requests| - 1;
      ResultsMapKeys(requests[..n], outcome);
      assert requests == requests[..n] + [requests[n]];
      assert (set r | r in requests :: r.id) == (set r | r in requests[..n] :: r.id) + {requests[n].id};
    }
  }

  /** A request whose id no later request shares maps to its own results, or to none when it raised. */
  lemma {:induction false} ResultsMapValue(requests: seq<SearchRequest>, outcome: SearchRequest -> Result<seq<ScrapingResult>, ScrapeError>, i: nat)
    requires i < |requests|
    requires forall j :: i < j < |requests| ==> requests[j].id != requests[i].id
    ensures requests[i].id in ResultsMap(requests, outcome)
    ensures ResultsMap(requests, outcome)[requests[i].id] == ResultsOf(outcome(requests[i]))
    decreases |requests|
  {
    var n := |requests| - 1;
    if i < n {
      ResultsMapValue(requests[..n], outcome, i);
    }
  }

  /**
   * `scrape_with_concurrency`, one request after the other: `outcome` is
   * what processing each request comes to.
   */
  method ScrapeWithConcurrency(requests: seq<SearchRequest>, outcome: SearchRequest -> Result<seq<ScrapingResult>, ScrapeError>)
    returns (results: map<int, seq<ScrapingResult>>)
    ensures results == ResultsMap(requests, outcome)
  {
    results := map[];
    var i := 0;
    while i < |requests|
      invariant 0 <= i <= |requests|
      invariant results == ResultsMap(requests[..i], outcome)
    {
      assert requests[..i + 1][..i] == requests[..i];
      results := results[requests[i].id := ResultsOf(outcome(requests[i]))];
      i := i + 1;
    }
    assert requests[..|requests|] == requests;
  }
}
