# hotel_scanner core, modelled in Dafny

This project models the text-and-state logic of the hotel_scanner price tracker. That logic sits between the browser, the database and the web framework. The model covers these parts:

- **Parsing and validation.** The three copies of the free-text price parser, the fixed-rate currency conversion and the data validator.
- **Card extraction.** The extraction rules over an abstract hotel card and page. A card maps a selector to the element it finds.
- **Search addresses.** Their construction, including a model of `urlencode`.
- **Pacing helpers.** The proxy rotation, the sliding-window rate limiter and the per-site delay controller.
- **Orchestration.** The orchestration of the enhanced scraper: the site loop, the dispatch, the demonstration data, the batched save and the request-to-results map.
- **Monitoring.** The performance monitor with its alert manager and Prometheus exporter.
- **Scheduling.** The job registry of the scheduler.
- **Web layer.** The chart grouping and the tracking toggle of the web routes, and the date validators of the search form.

Some pieces become parameters instead of being modelled:

- What the browser finds at an address becomes a function `visit: string -> PageOutcome`.
- The database becomes a `Database` object with a list of price rows and a map of crawl times.
- The scheduler's job table becomes a `map<string, Job>` beside a store of request ids and their tracking flags.
- Clock readings and random draws are parameters of the methods that use them.

Amounts are exact `real`s: the decimal value of the parsed token.

Modules and files:

- `basics.dfy` (`Basics`): `Option` and `Result`.
- `text.dfy` (`Text`): substring search, `str.replace` with an empty replacement, whitespace removal, ASCII lower-casing, `str(int)` with its inverse, and `join`.
- `seqs.dfy` (`Seqs`): filter-map, flatten, concat-map and the bounded `deque` append.
- `dates.dfy` (`Dates`): calendar dates, their order and `strftime('%Y-%m-%d')`.
- `url_encoding.dfy` (`UrlEncoding`): UTF-8, `quote_plus` and `urlencode`, each with its inverse.
- `price_parsing.dfy` (`PriceParsing`): the shared parser core, the three parsers and `normalize_price`.
- `price_examples.dfy` (`PriceParsingExamples`): worked inputs of the parsers.
- `data_validation.dfy` (`DataValidation`): `DataValidator`.
- `search_urls.dfy` (`SearchUrls`): the Booking.com and Agoda search addresses.
- `extraction.dfy` (`Extraction`): cards, pages and first-match selector lookup.
- `booking_scraper.dfy` (`BookingScraper`): `BookingScraper`.
- `records.dfy` (`Records`): `SearchRequest`, `HotelPrice` and `ScrapingResult`.
- `storage.dfy` (`Storage`): batch chunking and `_save_results_to_db`.
- `enhanced_scraper.dfy` (`EnhancedScraper`): `EnhancedScraperService`.
- `pacing.dfy` (`Pacing`): `ProxyManager`, `RateLimiter` and `DelayController`.
- `monitoring.dfy` (`Monitoring`): `PerformanceMonitor`, `AlertManager` and `MetricsExporter`.
- `scheduler_service.dfy` (`SchedulerService`): the job registry.
- `sorting.dfy` (`Sorting`): a stable sort by key. It stands for `list.sort(key=...)` and an SQL `ORDER BY`.
- `routes.dfy` (`Routes`): `toggle_tracking`, the index query and `chart_data`.
- `forms.dfy` (`Forms`): the `SearchForm` date validators.

Two behaviours a reader of the code might not expect:

- **Partial saves.** A failing batch commit leaves the earlier batches saved. A save is not all-or-nothing (see `Storage.Database.SaveResults`).
- **Overall totals.** The overall statistics count the bounded history, not the cumulative per-site counters.

## Model

| member | source | states |
|---|---|---|
| Seqs.CollectPresent | app/services/scrapers/booking_scraper.py:183-191 | the card loop appends each card's result in card order and skips cards without one; the same loop serves app/services/enhanced_scraper.py:352-382 |
| Text.ReplaceAllSingle | app/utils/scraper_helpers.py:67 | deleting a one-character key leaves exactly the other characters in order, and the key no longer occurs |
| Text.ReplaceAllAbsent | app/utils/scraper_helpers.py:59 | `replace` finds nothing to delete in a text where the key does not occur |
| Text.IntToStringRoundTrip | app/services/scheduler_service.py:35 | `str` of an integer reads back as the same integer |
| Text.JoinLineCount | app/utils/monitoring.py:305 | joining n lines without line feeds by a line feed gives exactly n-1 line feeds |
| Dates.BeforeIsStrictTotalOrder | app/forms.py:14 | date comparison is irreflexive, transitive and total |
| Dates.IsoRoundTrip | app/services/scrapers/booking_scraper.py:66-67 | the `%Y-%m-%d` text of a date reads back as that date |
| Dates.IsoInjective | app/services/scrapers/booking_scraper.py:66-67 | distinct dates print differently |
| UrlEncoding.DecodeUtf8RoundTrip | app/services/scrapers/booking_scraper.py:74 | decoding the UTF-8 bytes of a text gives back the text |
| UrlEncoding.QuotePlus | app/services/scrapers/booking_scraper.py:74 | every character of an escaped text is unreserved, `+` or part of a `%XY` escape |
| UrlEncoding.UnquotePlusRoundTrip | app/services/scrapers/booking_scraper.py:74 | unescaping the `quote_plus` escape gives back the text |
| UrlEncoding.QuotePlusInjective | app/services/scrapers/booking_scraper.py:74 | distinct texts escape differently |
| UrlEncoding.EncodeParamPieces | app/services/scrapers/booking_scraper.py:74 | an encoded pair has no `&` and splits on `=` into the escaped key and the escaped value |
| UrlEncoding.SplitUrlEncode | app/services/scrapers/booking_scraper.py:74 | the encoded query splits on `&` into exactly one encoded pair per parameter, in order |
| UrlEncoding.ParseQueryUrlEncode | app/services/scrapers/booking_scraper.py:74 | reading the encoded query back gives every parameter and its value in the dictionary's order |
| PriceParsing.FirstKey | app/utils/scraper_helpers.py:56-60 | the chosen entry's symbol occurs in the text and no earlier entry's symbol does; no entry is chosen only when none occurs |
| PriceParsing.FirstNumIndex | app/utils/scraper_helpers.py:63-64 | the match starts at the first digit or comma of the text; there is no match only when there is no digit or comma |
| PriceParsing.NumRun | app/utils/scraper_helpers.py:63 | the `[\d,]+` part of the match is the longest run of digits and commas at its start |
| PriceParsing.DigitRun | app/utils/scraper_helpers.py:63 | the `\d*` part after the dot is the longest run of digits |
| PriceParsing.TokenAt | app/utils/scraper_helpers.py:63-64 | the greedy match at a digit or comma is a non-empty run of digits and commas, then either nothing or a dot with only digits after it |
| PriceParsing.AmountToken | app/utils/scraper_helpers.py:63-64 | a match exists exactly when some digit or comma occurs, and what is found is a well-formed match |
| PriceParsing.NumRunOf | app/utils/scraper_helpers.py:63 | a run of digits and commas followed by any other character, or by nothing, is read to its end |
| PriceParsing.DigitRunOf | app/utils/scraper_helpers.py:63 | a run of digits followed by a non-digit, or by nothing, is read to its end |
| PriceParsing.FirstNumIndexOf | app/utils/scraper_helpers.py:64 | after a prefix with no digit or comma, the match starts right where the prefix ends |
| PriceParsing.TokenAtFinds | app/utils/scraper_helpers.py:63-64 | a match followed by text that cannot extend it is read exactly |
| PriceParsing.TokenAtIsMatch | app/utils/scraper_helpers.py:63-64 | the token read is a prefix of the text, and the text after it cannot extend it |
| PriceParsing.AmountTokenFinds | app/utils/scraper_helpers.py:63-64 | for every split of a text into a prefix with no digit or comma, a match, and a rest that cannot extend it, the search returns that match |
| PriceParsing.AmountTokenIsFirst | app/utils/scraper_helpers.py:63-64 | conversely, whatever the search returns is the leftmost, longest match of `[\d,]+\.?\d*` |
| PriceParsing.FirstNumberAfter | app/utils/scraper_helpers.py:64 | putting a prefix with no digit or comma in front of a text does not change which match comes first |
| PriceParsing.FractionValue | app/utils/scraper_helpers.py:68 | the digits after a decimal point are worth at least 0 and less than 1 |
| PriceParsing.ShiftedDecimal | app/utils/scraper_helpers.py:67-68 | moving the point of `w.f` right past all digits of `f` gives the integer written `wf` |
| PriceParsing.TokenAmount | app/utils/scraper_helpers.py:67-68 | `float` succeeds exactly when the token, commas dropped, has a digit; the value is never negative, and moving its point right past the digits after the dot gives the token's digits, commas and dot dropped, read as one integer |
| PriceParsing.AmountOfFirstNumber | app/utils/scraper_helpers.py:63-68 | the amount of a text is the `float` value of its leftmost, longest match |
| PriceParsing.RemoveKeepsDigits | app/utils/scraper_helpers.py:67 | dropping the commas of the digits-and-commas run leaves only digits |
| PriceParsing.SymbolRemoved | app/utils/scraper_helpers.py:56-60 | deleting the symbol only shortens the text and brings in no character; without an occurring entry the text is unchanged |
| PriceParsing.ParseCleanedReads | app/utils/scraper_helpers.py:56-69 | the parsed price is the `float` value of the leftmost, longest match in the text once the chosen symbol is deleted |
| PriceParsing.ParseCleaned | app/utils/scraper_helpers.py:53-74 | a failed parse is `(None, 'TWD')` whichever symbol matched; an amount is never negative and its currency is the first occurring entry's code, TWD when none occurs |
| PriceParsing.ParsePriceText | app/utils/scraper_helpers.py:34-74 | empty text gives `(None, 'TWD')`, and any failure has currency TWD |
| PriceParsing.ParsePriceEnhanced | app/services/enhanced_scraper.py:399-431 | a failure is `(None, 'TWD')`, and a parsed amount is never negative |
| PriceParsing.ParsePriceBooking | app/services/scrapers/booking_scraper.py:279-314 | a failure is `(None, 'TWD')`, and a parsed amount is never negative |
| PriceParsing.NoNumberNoPrice | app/utils/scraper_helpers.py:66-74 | a text with no digit or comma gives `(None, 'TWD')` whatever currency symbol it carries |
| PriceParsing.RemoveWhereSame | app/services/scrapers/booking_scraper.py:283 | two clean-ups that agree on every character of a text leave the same result |
| PriceParsing.NoLineFeedOrTabAfterStrip | app/utils/scraper_helpers.py:49-50 | no line feed or tab survives the `\s+` removal |
| PriceParsing.HelperCleanupRedundant | app/utils/scraper_helpers.py:49-50 | the helper's second clean-up never changes anything, so the helper parses what `\s+` removal leaves |
| PriceParsing.ParsePriceTextReads | app/utils/scraper_helpers.py:47-69 | the helper's price is the `float` value of the first match left after whitespace and the chosen symbol are removed |
| PriceParsing.ParsePriceEnhancedReads | app/services/enhanced_scraper.py:399-431 | the enhanced scraper's price is the `float` value of the first match left after whitespace and the chosen symbol are removed |
| PriceParsing.ParsePriceBookingReads | app/services/scrapers/booking_scraper.py:279-314 | the Booking scraper's price is the `float` value of the first match left after line feeds, spaces and the chosen symbol are removed |
| PriceParsing.ScraperParsersAgree | app/services/scrapers/booking_scraper.py:283 | the two scraper parsers agree on every text whose only whitespace is spaces and line feeds |
| PriceParsing.RateToTwd | app/utils/scraper_helpers.py:90-97 | every known rate is positive, and TWD's is 1 |
| PriceParsing.NormalizePrice | app/utils/scraper_helpers.py:99-107 | the same currency, or an unknown currency on either side, leaves the price unchanged |
| PriceParsing.NormalizeKnown | app/utils/scraper_helpers.py:102-105 | between known currencies the price is multiplied by the ratio of their rates |
| PriceParsing.NormalizeKeepsTwdValue | app/utils/scraper_helpers.py:102-105 | the converted amount is worth as many Taiwan dollars as the original |
| PriceParsing.NormalizeRoundTrip | app/utils/scraper_helpers.py:77-107 | converting A to B and back to A gives the original price, for all currencies |
| PriceParsing.NormalizeCompose | app/utils/scraper_helpers.py:102-105 | converting through an intermediate known currency equals converting directly |
| PriceParsingExamples.FirstKeyIs | app/utils/scraper_helpers.py:56-60 | an occurring entry is the one chosen when every earlier symbol's first character is absent from the text |
| PriceParsingExamples.AmountOfDigits | app/utils/scraper_helpers.py:63-68 | a string of plain digits parses to its decimal value |
| PriceParsingExamples.NoSpaceStrip | app/utils/scraper_helpers.py:49 | a text without whitespace is unchanged by the clean-up |
| PriceParsingExamples.TwoThreeFiftyAmount | app/utils/scraper_helpers.py:63-68 | "2,350.50" reads as 2350.5: commas dropped, decimals kept |
| PriceParsingExamples.NtDollarIsTaiwanDollar | app/utils/scraper_helpers.py:24-31 | "NT$2,350.50" is 2350.5 TWD, because "NT$" comes before "$" in the table |
| PriceParsingExamples.UsDollarNameIsUsd | app/utils/scraper_helpers.py:26 | "100美元" is 100 USD, because "美元" comes before "元" in the table |
| PriceParsingExamples.UsDollarNameIsTwdToScraper | app/services/enhanced_scraper.py:408-413 | the enhanced scraper does not know "美元" and reads "100美元" as 100 TWD |
| PriceParsingExamples.HundredBeforeName | app/utils/scraper_helpers.py:63-64 | the number stops at the first character that is neither a digit nor a comma |
| PriceParsingExamples.CommaOnlyIsNoPrice | app/services/enhanced_scraper.py:423-431 | "$," gives `(None, 'TWD')`: the match is a lone comma and `float('')` raises |
| DataValidation.StripLeft | app/utils/scraper_helpers.py:268 | `lstrip` drops only leading whitespace and stops at the first non-space |
| DataValidation.StripRight | app/utils/scraper_helpers.py:268 | `rstrip` drops only trailing whitespace and stops at the last non-space |
| DataValidation.Strip | app/utils/scraper_helpers.py:268 | a stripped text neither begins nor ends with whitespace |
| DataValidation.StripUnpadded | app/utils/scraper_helpers.py:268 | a text without surrounding whitespace is its own strip |
| DataValidation.IsValidHotelName | app/utils/scraper_helpers.py:266-275 | a name is accepted exactly when it has at least two characters besides surrounding whitespace and none of the five spam keywords occurs in it, lower-cased |
| DataValidation.OccursPrefix | app/utils/scraper_helpers.py:272-275 | a key occurs wherever a longer key beginning with it occurs |
| DataValidation.AdvertisementRedundant | app/utils/scraper_helpers.py:272 | "advertisement" never rejects a name that "ad" did not already reject |
| DataValidation.HotelNameKeywords | app/utils/scraper_helpers.py:266-275 | keyword by keyword: a name is accepted exactly when it has at least two non-blank characters and contains none of "廣告", "ad", "spam" and "點擊這裡" |
| DataValidation.RoadInnRejected | app/utils/scraper_helpers.py:272-275 | keywords match inside words, so "Road Inn" is rejected as spam |
| DataValidation.TokyoInnAccepted | app/utils/scraper_helpers.py:266-275 | a name free of keywords with two or more characters is accepted |
| DataValidation.PriceBand | app/utils/scraper_helpers.py:284-292 | the band of each currency: TWD [500, 50000], USD/EUR/GBP [20, 2000], JPY [2000, 200000], anything else unbounded above 0 |
| DataValidation.IsValidPrice | app/utils/scraper_helpers.py:278-293 | accepted prices are positive; TWD, USD/EUR/GBP and JPY accept exactly their inclusive bands (500–50000, 20–2000, 2000–200000); an unknown currency accepts every positive price |
| DataValidation.UsdBandExceedsTwdBand | app/utils/scraper_helpers.py:284-286 | the top plausible US-dollar price, 2000, converts at the fixed rate 31.5 to 63000 TWD, which the TWD band rejects |
| DataValidation.JpyBandBelowTwdBand | app/utils/scraper_helpers.py:284-289 | the bottom plausible yen price, 2000, converts at the fixed rate 0.21 to 420 TWD, which the TWD band rejects |
| DataValidation.CollapseSpaces | app/utils/scraper_helpers.py:302 | the only whitespace left is single spaces, no two spaces are adjacent, and a leading space survives only where the text began with whitespace |
| DataValidation.CleanHotelName | app/utils/scraper_helpers.py:296-307 | every character of the result is a word character, a space or one of `- ( ) [ ] . / &` |
| DataValidation.CleanHotelNameKeeps | app/utils/scraper_helpers.py:296-307 | whitespace aside, the result holds exactly the name's word characters and listed punctuation, in their order |
| DataValidation.CleanKeptName | app/utils/scraper_helpers.py:302-307 | a name with nothing to drop comes out stripped, with each run of whitespace turned into a single space |
| DataValidation.StripKeeps | app/utils/scraper_helpers.py:303 | `strip` removes only whitespace |
| DataValidation.CollapseKeeps | app/utils/scraper_helpers.py:303 | collapsing whitespace runs leaves every other character in place and in order |
| DataValidation.CollapseEndsUnpadded | app/utils/scraper_helpers.py:303 | a text ending in a non-space character still does once its whitespace runs are collapsed |
| DataValidation.CleanTidyName | app/utils/scraper_helpers.py:296-307 | a name that is already tidy comes back unchanged |
| DataValidation.CollapseSingleSpaces | app/utils/scraper_helpers.py:302 | collapsing changes nothing where whitespace is already single spaces |
| DataValidation.LeadingSymbolLeavesSpace | app/utils/scraper_helpers.py:302-305 | symbols are dropped after the whitespace was tidied, so "★ Inn" becomes " Inn" with a leading space |
| SearchUrls.BookingParams | app/utils/scraper_helpers.py:243-250 | the booking search has exactly six parameters |
| SearchUrls.BuildSearchUrl | app/services/scrapers/booking_scraper.py:61-75 | the address starts with the base and `/searchresults.html?` |
| SearchUrls.BuildBookingSearchUrl | app/utils/scraper_helpers.py:238-253 | the helper's address starts with `https://www.booking.com/searchresults.html?` |
| SearchUrls.BookingSearchUrlCarriesParams | app/utils/scraper_helpers.py:238-253 | for any location, date texts, adults and rooms, the query decodes to `ss`, `checkin`, `checkout`, `group_adults`, `no_rooms` and `group_children=0`, in that order, with the values as given and the counts in decimal |
| SearchUrls.BookingSearchUrlInjective | app/utils/scraper_helpers.py:238-253 | helper addresses that differ in any value, the counts included, are different |
| SearchUrls.SearchUrlCarriesParams | app/services/scrapers/booking_scraper.py:61-75 | the query reads back as exactly ss, checkin, checkout, group_adults=2, no_rooms=1, group_children=0, in order, with the location unchanged and the dates in ISO form |
| SearchUrls.SearchUrlInjective | app/services/scrapers/booking_scraper.py:61-75 | searches that differ in place or dates get different addresses |
| SearchUrls.BuilderMatchesScraper | app/utils/scraper_helpers.py:238-253 | with its defaults and ISO dates, the helper builds the scraper's own Booking.com address |
| SearchUrls.BuildAgodaSearchUrl | app/utils/scraper_helpers.py:256-260 | the Agoda address starts with `https://www.agoda.com/search?city=` |
| SearchUrls.AgodaQueryPieces | app/utils/scraper_helpers.py:256-260 | the values go into the query unescaped: without `&` it splits into city, checkIn and checkOut |
| SearchUrls.AgodaAmpersandSplitsLocation | app/utils/scraper_helpers.py:260 | a location containing `&` is cut short and its tail becomes a separate query piece |
| Extraction.FirstTextIndex | app/services/enhanced_scraper.py:391-397 | the chosen selector is the first whose element exists with non-empty text |
| Extraction.ExtractText | app/services/enhanced_scraper.py:389-397 | a text is found exactly when some selector yields non-empty text, and the text is never empty |
| Extraction.ExtractTextPrefix | app/services/scrapers/booking_scraper.py:250-255 | selectors after the first one that yields text do not matter |
| Extraction.FindHotelCards | app/services/scrapers/booking_scraper.py:198-214 | non-empty cards are the cards of some selector; no cards only when every selector finds none |
| Extraction.FindHotelCardsFirst | app/services/scrapers/booking_scraper.py:207-211 | the first selector that finds cards wins over every later one |
| BookingScraper.ExtractPriceInfo | app/services/scrapers/booking_scraper.py:259-277 | a found price is positive and is the parse of the text under the first selector whose text parses to a truthy price; none is found only when no selector's text does |
| BookingScraper.ExtractDetailsUrl | app/services/scrapers/booking_scraper.py:316-334 | with no usable link the address is base + "/hotels"; a usable first link decides the address |
| BookingScraper.DetailsUrlFirstUsable | app/services/scrapers/booking_scraper.py:325-332 | the first usable link decides the address, whatever unusable links come before it |
| BookingScraper.ResolveCases | app/services/scrapers/booking_scraper.py:329-332 | a relative `href` is joined to the base; an `http` one is returned unchanged |
| BookingScraper.ExtractHotelInfo | app/services/scrapers/booking_scraper.py:216-238 | a tuple exists exactly when a name and a price are found, and carries that name, price, currency, "Booking.com" and, as its details address, the first usable link resolved against the site (or the site's `/hotels` page when there is none) |
| BookingScraper.ExtractAllWellFormed | app/services/scrapers/booking_scraper.py:183-187 | every kept tuple comes from some card and has a name, a positive price and the Booking.com source |
| BookingScraper.ExtractAllKeeps | app/services/scrapers/booking_scraper.py:183-187 | a card with a name and a price is never dropped |
| BookingScraper.ParseSearchResults | app/services/scrapers/booking_scraper.py:169-196 | the results are the tuples of the first card selector's cards, in order |
| BookingScraper.ScrapeHotels | app/services/scrapers/booking_scraper.py:25-59 | a page that loads gives its extracted tuples, and a failed load or a missing result list gives none |
| EnhancedScraper.CardResult | app/services/enhanced_scraper.py:354-378 | a card yields a result exactly when it has a title, a price text and a truthy parse; the result has that name and parse, source "Booking.com" and the example address |
| EnhancedScraper.Capped | app/services/enhanced_scraper.py:352 | `[:10]`: a prefix of at most ten cards, the whole list when it is shorter |
| EnhancedScraper.BookingResultsFromFirstCards | app/services/enhanced_scraper.py:342-387 | at most ten results, each from one of the first ten cards, each with a name and a positive price |
| EnhancedScraper.BookingResultsKeeps | app/services/enhanced_scraper.py:352-378 | every one of the first ten cards that yields a result contributes it |
| EnhancedScraper.ParseBookingResults | app/services/enhanced_scraper.py:342-387 | the results are those of the page's first ten cards, in order |
| EnhancedScraper.BookingOutcome | app/services/enhanced_scraper.py:266-294 | a loaded page gives its parsed results, and a failed load or wait gives none |
| EnhancedScraper.FakeData | app/services/enhanced_scraper.py:445-468 | exactly three TWD results named "… - site", from that site, at base + "/hotel-example", priced in [1500, 5000] and rated in [3.5, 4.8] |
| EnhancedScraper.ScrapeSite | app/services/enhanced_scraper.py:245-264 | a missing name gives no results; "booking.com" (ignoring ASCII case) gives the parsed results of the search page at the configured or default base; "agoda" and "hotels.com" give demonstration data named "Agoda" and "Hotels.com"; any other name gives demonstration data under that name; never more than ten results |
| EnhancedScraper.ScrapeSiteWellFormed | app/services/enhanced_scraper.py:245-264 | every result of a site has a name and a positive price |
| EnhancedScraper.ScrapeSiteIgnoresCase | app/services/enhanced_scraper.py:251-256 | the dedicated branches do not depend on how the site name's ASCII letters are capitalised |
| EnhancedScraper.SitesResultsAppend | app/services/enhanced_scraper.py:214-234 | the results of a configuration are those of its two halves in order, so a failing site removes only its own results |
| EnhancedScraper.DisabledSitesSkipped | app/services/enhanced_scraper.py:215-216 | disabled sites contribute nothing |
| EnhancedScraper.SitesResultsWellFormed | app/services/enhanced_scraper.py:209-243 | every collected result has a name and a positive price |
| EnhancedScraper.Browser.Quit | app/services/enhanced_scraper.py:237 | the browser is closed |
| EnhancedScraper.ScrapeSingleRequest | app/services/enhanced_scraper.py:200-243 | no browser gives no results and no save; otherwise the browser is always quit, empty results are not saved, and non-empty ones are saved batch by batch, with a failed save raising |
| EnhancedScraper.ResultsMapKeys | app/services/enhanced_scraper.py:177-198 | the map has exactly one key per request id |
| EnhancedScraper.ResultsMapValue | app/services/enhanced_scraper.py:189-196 | a request maps to its own results, or to none when its processing raised |
| EnhancedScraper.ScrapeWithConcurrency | app/services/enhanced_scraper.py:177-198 | the collected map is the requests' outcomes entered one request at a time |
| Storage.RowsOfAt | app/services/enhanced_scraper.py:478-488 | the i-th row is built from the i-th result, stamped with the request id and the time |
| Storage.RowsOfAppend | app/services/enhanced_scraper.py:478-488 | rows of a concatenation are the rows of each part, in order |
| Storage.CoveredIsMin | app/services/enhanced_scraper.py:475-476 | the first k batches hold min(k·size, n) items |
| Storage.Chunks | app/services/enhanced_scraper.py:475-476 | each batch is non-empty and at most `batch_size` long, every batch but the last is full, and there are n/size rounded up of them |
| Storage.ChunksFlatten | app/services/enhanced_scraper.py:475-476 | the batches put back together are exactly the input: nothing lost, repeated or reordered |
| Storage.ChunksPrefix | app/services/enhanced_scraper.py:475-491 | the first k batches are the first min(k·size, n) results |
| Storage.CommittedCount | app/services/enhanced_scraper.py:475-503 | never more rows are committed than there are results |
| Storage.NextBatchRows | app/services/enhanced_scraper.py:478-491 | committing one more batch adds exactly that batch's rows |
| Storage.FailedBatchRows | app/services/enhanced_scraper.py:475-503 | a commit failing at batch k keeps exactly the first k batches |
| Storage.AllBatchesKept | app/services/enhanced_scraper.py:475-491 | when every batch commits, every result is kept |
| Storage.Database.SaveResults | app/services/enhanced_scraper.py:470-503 | the save succeeds exactly when no commit fails; the committed batches' rows are added in order; `last_crawled_at` is set only on success |
| Storage.Database.CommitBatches | app/services/enhanced_scraper.py:475-491 | the batch loop adds each batch's rows, stopping at the failing commit |
| Storage.Database.CommitChunks | app/services/enhanced_scraper.py:475-491 | over any list of batches: the commit succeeds exactly when the failing batch, if any, is beyond the list, and the rows added are those of every batch before the failing one (all of them on success), in order |
| Pacing.Available | app/utils/scraper_helpers.py:194 | the available proxies are exactly the pool members that have not failed |
| Pacing.AvailableNoFailures | app/utils/scraper_helpers.py:194 | with no failure every proxy is available, in pool order |
| Pacing.PickProxy | app/utils/scraper_helpers.py:189-207 | no proxy exactly when the pool is empty |
| Pacing.PickAvoidsFailed | app/utils/scraper_helpers.py:194-205 | the pick is from the pool, and it has not failed unless every proxy has |
| Pacing.PickRoundRobin | app/utils/scraper_helpers.py:203-204 | the choice repeats after one full turn of the candidates |
| Pacing.PickDistinct | app/utils/scraper_helpers.py:203-204 | consecutive picks within one turn visit distinct candidates |
| Pacing.ProxyManager.GetNextProxy | app/utils/scraper_helpers.py:189-207 | an empty pool changes nothing; otherwise the failed set is cleared when every proxy failed, and the index moves on by one |
| Pacing.ProxyManager.MarkProxyFailed | app/utils/scraper_helpers.py:209-211 | exactly that proxy joins the failed set |
| Pacing.Recent | app/utils/scraper_helpers.py:321 | the kept times are exactly those less than 60 s old |
| Pacing.RecentKeepsWindow | app/utils/scraper_helpers.py:321 | a window of recent times is kept whole |
| Pacing.Oldest | app/utils/scraper_helpers.py:325 | `min` is a member of the times and at most every one of them |
| Pacing.RateDecision | app/utils/scraper_helpers.py:324-330 | at the limit the call sleeps exactly when 60 − (now − oldest) + jitter is positive, for that long; below the limit the request proceeds; `min` of an empty list raises exactly when there is no recent request and the limit is ≤ 0 |
| Pacing.AtLimitSleeps | app/utils/scraper_helpers.py:320-330 | the limiter throttles: once the recent requests reach the limit, the next call sleeps |
| Pacing.SleepClearsOldest | app/utils/scraper_helpers.py:324-330 | after the sleep the oldest recent request is out of the window |
| Pacing.BelowLimitProceeds | app/utils/scraper_helpers.py:321-324 | below the limit the request goes through at once |
| Pacing.RateLimiter.WaitIfNeeded | app/utils/scraper_helpers.py:316-332 | old times are dropped, the decision is returned, and `now` is appended unless `min` raised |
| Pacing.SiteConfigIndex | app/utils/scraper_helpers.py:172-178 | the chosen site is the first whose name matches ignoring ASCII case; none only when no name matches |
| Pacing.DelaySleep | app/utils/scraper_helpers.py:155-163 | no sleep when the minimum delay has already elapsed, and never a negative sleep |
| Pacing.DelayRespectsRange | app/utils/scraper_helpers.py:156-163 | with a well-ordered range, visits of a site are spaced by at least the minimum and at most the maximum delay |
| Pacing.DelayController.WaitIfNeeded | app/utils/scraper_helpers.py:145-165 | the sleep is the one the site's range calls for, and the visit is recorded at the wake-up time |
| Monitoring.Record | app/utils/monitoring.py:87-100 | one more request; exactly one of successful/failed moves on, successful exactly on success; last_success or last_error set accordingly; balance kept |
| Monitoring.TrackedMetric | app/utils/monitoring.py:51-77 | success exactly when the body did not raise, the error message is the exception's, results_count is 0 and the duration is end − start |
| Monitoring.ViewOf | app/utils/monitoring.py:102-118 | the ratios are zero for an unseen site, otherwise rate·total = successful and average·total = duration, and the rate is in [0, 1] |
| Monitoring.SixOfTen | app/utils/monitoring.py:107-108 | six successes in ten requests is a success rate of 0.6 |
| Monitoring.UnseenSiteUnhealthy | app/utils/monitoring.py:165-168 | an unseen site is unhealthy for any positive minimum |
| Monitoring.SuccessCount | app/utils/monitoring.py:132 | successes never exceed the history's length |
| Monitoring.SiteViews | app/utils/monitoring.py:145-146 | one entry per site, in the order first seen, each that site's view |
| Monitoring.OverallOf | app/utils/monitoring.py:120-148 | empty history gives zeros; otherwise totals count the bounded history, successful + failed = total, and the rate is in [0, 1] |
| Monitoring.HistoryOverall | app/utils/monitoring.py:131-142 | over a non-empty history: the total is its length, successful + failed = total, the success rate times the total is the success count and lies in [0, 1], and the average duration times the total is the summed duration |
| Monitoring.SiteStatisticsLocked | app/utils/monitoring.py:104 | a call made while the non-re-entrant lock is held never returns; otherwise it gives the site's view |
| Monitoring.SiteViewsLockedSpec | app/utils/monitoring.py:145-146 | with the lock held, the site loop blocks exactly when there is a site |
| Monitoring.OverallAsWrittenBlocks | app/utils/monitoring.py:122-146 | as written, the overall statistics block exactly when there is a metric and a site, and otherwise agree with the corrected version |
| Monitoring.RecordedMonitorDeadlocks | app/utils/monitoring.py:81-146 | once any metric has been recorded, the overall statistics as written never return |
| Monitoring.FailuresFromHistory | app/utils/monitoring.py:154-161 | every listed error is a failed metric of the history |
| Monitoring.NewestFailureFirst | app/utils/monitoring.py:154 | the newest failure is listed first |
| Monitoring.RecentErrors | app/utils/monitoring.py:150-163 | at most `limit` errors (none for a limit ≤ 0), and they are the newest failures, newest first |
| Monitoring.RecordConsistent | app/utils/monitoring.py:84-100 | recording keeps the monitor's invariant: history bound, known sites, counters for every site, each balanced |
| Monitoring.PushKeepsSites | app/utils/monitoring.py:81-87 | the bounded history holds only metrics of sites with counters |
| Monitoring.RecordKeepsBalance | app/utils/monitoring.py:81-96 | total = successful + failed for every site after any recording |
| Monitoring.PerformanceMonitor.constructor | app/utils/monitoring.py:34-46 | an empty history, no site and the given bound |
| Monitoring.PerformanceMonitor.Touch | app/utils/monitoring.py:37-45 | a `defaultdict` lookup inserts a zero entry for an unseen site and changes nothing else |
| Monitoring.PerformanceMonitor.RecordMetrics | app/utils/monitoring.py:81-100 | the metric joins the bounded history (oldest evicted) and only its site's entry changes |
| Monitoring.PerformanceMonitor.TrackScraping | app/utils/monitoring.py:48-79 | exactly one metric is recorded on every exit, and the exception is passed on |
| Monitoring.PerformanceMonitor.GetSiteStatistics | app/utils/monitoring.py:102-118 | the site's ratios, with a zero entry inserted for an unseen site |
| Monitoring.PerformanceMonitor.IsSiteHealthy | app/utils/monitoring.py:165-168 | healthy exactly when the success rate reaches the minimum |
| Monitoring.PerformanceMonitor.GetOverallStatistics | app/utils/monitoring.py:120-148 | the corrected overall statistics, with the lock taken once |
| Monitoring.PerformanceMonitor.GetRecentErrors | app/utils/monitoring.py:150-163 | the walk from the newest metric gives the newest failures, at most `limit` |
| Monitoring.AlertTypes | app/utils/monitoring.py:184-210 | low_success_rate exactly when total ≥ 5 and rate < 1 − error_rate; slow_response exactly when the average duration exceeds the threshold, with no volume gate |
| Monitoring.SendStep | app/utils/monitoring.py:212-230 | within 300 s of the key's last alert (0 when none) nothing changes; otherwise the time is recorded and exactly one alert is appended to the bounded history |
| Monitoring.CooldownSuppresses | app/utils/monitoring.py:217-219 | two breaches of one kind for one site within 300 s give one alert |
| Monitoring.SendAllAppend | app/utils/monitoring.py:184-210 | sending two lists of alerts is sending one after the other |
| Monitoring.SendAllBounded | app/utils/monitoring.py:175-230 | the alert history never exceeds 100 entries |
| Monitoring.AlertManager.constructor | app/utils/monitoring.py:173-177 | no alert and no last time |
| Monitoring.AlertManager.SendAlert | app/utils/monitoring.py:212-236 | the state after one `_send_alert` is the cooldown step |
| Monitoring.AlertManager.CheckAndSendAlerts | app/utils/monitoring.py:179-210 | each site's due alerts are sent in order, site by site |
| Monitoring.PrometheusLines | app/utils/monitoring.py:285-303 | six overall lines plus three per site |
| Monitoring.SiteLines | app/utils/monitoring.py:298-303 | three lines per site, in site order |
| Monitoring.PrometheusLineCount | app/utils/monitoring.py:305 | the text has exactly 5 + 3·sites line feeds when no name or number holds one |
| Monitoring.AppendSiteLines | app/utils/monitoring.py:298-303 | the per-site loop appends exactly the sites' lines |
| Seqs.AppendEach | app/utils/monitoring.py:298-303 | the loop that appends each element's lines in turn ends with the starting lines followed by every element's lines, in order |
| Monitoring.MetricsExporter.GetPrometheusMetrics | app/utils/monitoring.py:283-305 | the text is the lines of the overall statistics joined by line feeds |
| SchedulerService.JobIdShape | app/services/scheduler_service.py:35 | the id begins with `crawl_request_` followed by at least one character |
| SchedulerService.JobIdRoundTrip | app/services/scheduler_service.py:35 | the request id can be read back from its job id |
| SchedulerService.JobIdInjective | app/services/scheduler_service.py:35 | distinct requests get distinct job ids |
| SchedulerService.Registry.RemoveScheduledJob | app/services/scheduler_service.py:63-73 | the request's job is gone, an absent job is a no-op, and nothing else changes |
| SchedulerService.Registry.JobWrapper | app/services/scheduler_service.py:10-29 | a missing request removes its own job and is not scraped; an untracked one is skipped and keeps its job; a tracked one is scraped once |
| SchedulerService.Registry.SchedulePriceCheck | app/services/scheduler_service.py:31-61 | afterwards there is exactly one job for the request with the configured interval (2 h by default); run_now runs the wrapper once |
| SchedulerService.RescheduledJobs | app/services/scheduler_service.py:75-87 | rescheduling a list of requests leaves each of them with its job at the interval, keeps every earlier job, and changes or adds only jobs of listed requests |
| SchedulerService.RescheduledTracked | app/services/scheduler_service.py:75-87 | when the list is exactly the tracked requests: every tracked request has its job at the interval and any job that changed belongs to a tracked request |
| SchedulerService.Registry.RescheduleAllActiveJobs | app/services/scheduler_service.py:75-87 | every tracked request has its job at the configured interval, no job is removed, other jobs are untouched, and nothing is scraped |
| Sorting.InsertBy | app/routes.py:57 | insertion adds exactly the new element |
| Sorting.SortBy | app/routes.py:57 | the sort is a permutation of its input |
| Sorting.InsertSorted | app/routes.py:57 | inserting into a sorted sequence keeps it sorted |
| Sorting.InsertStable | app/routes.py:57 | an inserted element goes behind those with its key |
| Sorting.SortBySorted | app/routes.py:57 | the result is sorted ascending by key |
| Sorting.SortByStable | app/routes.py:57 | elements with equal keys keep their input order |
| Sorting.SortBySortedInput | app/routes.py:57 | an already sorted sequence is unchanged |
| Routes.ToggleTracking | app/routes.py:61-68 | a missing request is a 404; otherwise only that request's `is_tracking` is negated |
| Routes.ToggleTwice | app/routes.py:62-65 | toggling twice restores the table |
| Routes.TrackedOnly | app/routes.py:31 | exactly the tracked requests |
| Routes.ActiveSearches | app/routes.py:31 | exactly the tracked requests, as a permutation of the filtered list |
| Routes.ActiveSearchesNewestFirst | app/routes.py:31 | the list is ordered newest `created_at` first |
| Routes.Trunc | app/routes.py:46 | `int()` truncates toward zero for both signs |
| Routes.TimestampMs | app/routes.py:46 | the whole milliseconds of a non-negative timestamp, rounded down |
| Routes.GroupedAt | app/routes.py:43-52 | a hotel exactly when some row names it, a series exactly when some row has that hotel and site, and each series is those rows' points in row order |
| Routes.SeriesCountsRows | app/routes.py:43-52 | every matching row gives exactly one point |
| Routes.GroupPrices | app/routes.py:43-52 | the loop builds the grouping of the rows in query order |
| Routes.SortSources | app/routes.py:56-57 | every series of one hotel is sorted by time, and the sources are kept |
| Routes.SortSeries | app/routes.py:55-57 | every series of every hotel is sorted by time, and the keys are kept |
| Routes.BuildChartData | app/routes.py:41-57 | `chart_data` has one hotel per named hotel, one series per site it was seen on, and each series is those rows' points sorted by time |
| Routes.ChartSeriesProperties | app/routes.py:38-57 | each series is sorted, a permutation of its rows' points, one point per matching row, and equal timestamps keep the query order |
| Forms.ValidateCheckIn | app/forms.py:13-15 | rejected exactly when check-in is before today; today is accepted |
| Forms.ValidateCheckOut | app/forms.py:17-19 | rejected exactly when check-in is present and check-out is on or before it; skipped without a check-in |
| Forms.AcceptedStays | app/forms.py:13-19 | a stay passes both validators exactly when today ≤ check-in < check-out |

## Left out

- **Browser automation.** This covers WebDriver setup, page loads, readiness waits, pop-up handling, scrolling and `_safe_get_page`. What the browser finds at an address is the `visit` parameter.
- **The `@retry` decorator.** The body it wraps catches every exception, so it never retries; a page load is one attempt.
- **The thread pool of `scrape_with_concurrency`.** It is modelled one request after the other, in submission order. When two requests share an id, the later one wins. In the code, whichever finishes last wins.
- **Locks.** The monitor's lock appears only in the deadlock finding below. The daemon alert thread is not modelled.
- **Clocks, sleeps and random draws.** They are method parameters: `now`, `after`, `jitter`, `u` and `Draws`. Sleeps are returned, not performed.
- **The sleep between sites.** The per-site sleep in `scrape_single_request` is not modelled.
- **The delay controller's fallback.** When reading a site's delay configuration raises, the controller falls back to a random sleep. This is not modelled.
- **Database, Flask and APScheduler.** They become a `Database` object, a request store (`map<int, bool>`) and a job table.
- **The active-request query.** `reschedule_all_active_jobs` takes the ids its query returns as the `active` parameter.
- **The scrape itself.** `scrape_prices_for_request` is not part of this model. The job registry only records which request ids were handed to it.
- **Notification and export I/O.** The notification stubs, `export_to_json`, `UserAgentRotator` and `ProxyManager.test_proxy` are I/O or network calls and are not modelled.
- **Alert and log text.** The alert message text is not modelled.
- Monitoring.PrometheusLines: the number rendering is a parameter, because Python float formatting is not modelled. Each line's prefix and the line structure are modelled.
- Monitoring.RecentErrors: `time` stays a number, because the ISO-8601 rendering of timestamps is not modelled.
- **Float arithmetic.** Amounts, rates and ratios are exact reals. `round(..., 2)` in the demonstration data is not modelled.
- DataValidation.CleanHotelName: Python's Unicode `\w` is the parameter `word`. The result is not tidy in general: removing a symbol can leave a leading space or two spaces in a row ("★ Inn" becomes " Inn"), which the code does too.
- EnhancedScraper.ScrapeSite: `str.lower` is modelled on ASCII letters only. Python also lower-cases other letters, so a name such as "BOO\u212AING.COM" (with the Kelvin sign) lowers to "booking.com" and takes the Booking branch in the code, while the model gives demonstration data.
- EnhancedScraper.ScrapeSiteIgnoresCase: the same ASCII-only `str.lower` as ScrapeSite, so it covers only names that differ in the case of ASCII letters.
- Pacing.SiteConfigIndex: `str.lower` is modelled on ASCII letters only, so "ŌSAKA" finds a site named "ōsaka" in the code and none in the model.
- Dates.Iso: years below 1000 are written with four zero-padded digits. The platform's own `%Y` rendering of such years (glibc leaves them unpadded) is not modelled.
- EnhancedScraper.ScrapeSite: exceptions from the HTML parser are not modelled. The model raises only where the code raises on the modelled data: `.lower()` on a missing site name, and `float('')` on a comma-only token, which the price parser catches.
- SchedulerService.Registry.JobWrapper: a failing scrape is swallowed, so it is recorded as scraped like a successful one.
- Routes.ActiveSearches: the SQL `ORDER BY created_at DESC` is modelled as a stable sort. The database's order among equal timestamps is unspecified.
- Routes.BuildChartData: the insertion order of the `chart_data` dictionaries is not modelled. Maps are unordered.
- Routes.BuildChartData: the query that yields `prices` (the filter by `search_request_id` and `ORDER BY crawl_timestamp DESC, price ASC`) is not modelled. `prices` is a parameter taken in the order given, so points with equal timestamps keep that parameter's order, not ascending price.
- Storage.Database.SaveResults: one clock reading `now` stamps every row and `last_crawled_at`. The code reads `datetime.now(timezone.utc)` afresh for each row and again for `last_crawled_at`, so its stamps can differ slightly.
- ParseCleaned: `\d` is modelled as the ASCII digits `0`–`9`. Python's `\d` in a str pattern, and `float()`, also accept every other Unicode decimal digit, so a text such as "NT$１２００" (full-width digits) gives a price in the code and none in the model.
- ParsePriceText: the same ASCII-only `\d` as ParseCleaned, so no price is found in text whose digits are not ASCII.
- ParsePriceEnhanced: the same ASCII-only `\d` as ParseCleaned, so no price is found in text whose digits are not ASCII.
- ParsePriceBooking: the same ASCII-only `\d` as ParseCleaned, so no price is found in text whose digits are not ASCII.
- FirstNumIndex: a non-ASCII decimal digit does not start a match, which Python's `\d` would.
- NumRun: a non-ASCII decimal digit ends the run, which Python's `\d` would not.
- DigitRun: a non-ASCII decimal digit ends the run, which Python's `\d` would not.
- AmountToken: the token is cut at the first non-ASCII decimal digit, where Python's `\d` would continue.
- **`delete_search`.** The cascading delete of a search request and its prices is a database operation and is not modelled.

## Findings

| source | as written | input that shows it | evidently intended | confidence | as-written member | corrected member |
|---|---|---|---|---|---|---|
| app/utils/monitoring.py:122,146,104 | `get_overall_statistics` holds `self._lock`, a non-re-entrant `threading.Lock`, while it calls `get_site_statistics`, which takes the same lock again | a monitor after one `record_metrics` call: the history is non-empty and there is one site, so the first inner call blocks for ever; `get_prometheus_metrics` and `export_to_json` hang with it | compute the per-site views under the one lock already held, with the same result as written for the other fields | not executed | Monitoring.OverallAsWritten, Monitoring.RecordedMonitorDeadlocks | Monitoring.OverallOf, Monitoring.PerformanceMonitor.GetOverallStatistics |
