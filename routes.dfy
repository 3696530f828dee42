/**
 * The logic of the web routes: the tracking toggle, the list of tracked
 * searches on the index page, and the chart series of `search_details`.
 * The request and price tables are values handed in; the page rendering,
 * flashing and redirects are not modelled.
 */
module Routes {
  import opened Basics
  import opened Records
  import opened Sorting

  /** `get_or_404` on a missing id. */
  datatype RouteError = NotFound(id: int)

  /**
   * `toggle_tracking`: the request's `is_tracking` is negated and nothing
   * else changes; a missing request is a 404.
   */
  function ToggleTracking(requests: map<int, SearchRequest>, id: int): (r: Result<map<int, SearchRequest>, RouteError>)
    ensures r.Err? <==> id !in requests
    ensures r.Err? ==> r.error == NotFound(id)
    ensures r.Ok? ==> r.value.Keys == requests.Keys
    ensures r.Ok? ==> r.value[id].isTracking == !requests[id].isTracking
    ensures r.Ok? ==> r.value[id].(isTracking := requests[id].isTracking) == requests[id]
    ensures r.Ok? ==> forall other :: other in requests && other != id ==> r.value[other] == requests[other]
  {
    if id !in requests then Err(NotFound(id))
    else Ok(requests[id := requests[id].(isTracking := !requests[id].isTracking)])
  }

  /** Toggling twice restores the table. */
  lemma ToggleTwice(requests: map<int, SearchRequest>, id: int)
    requires id in requests
    ensures ToggleTracking(ToggleTracking(requests, id).value, id) == Ok(requests)
  {
    var once := ToggleTracking(requests, id).value;
    assert ToggleTracking(once, id).value == requests;
  }

  /** The requests with `is_tracking` set, in table order. */
  function TrackedOnly(requests: seq<SearchRequest>): (r: seq<SearchRequest>)
    ensures forall x :: x in r <==> x in requests && x.isTracking
    ensures |r| <= |requests|
  {
    if |requests| == 0 then []
    else
      var n := |requests| - 1;
      assert requests == requests[..n] + [requests[n]];
      TrackedOnly(requests[..n]) + (if requests[n].isTracking then [requests[n]] else [])
  }

  /** The sort key that puts the newest `created_at` first. */
  function NewestFirst(r: SearchRequest): real {
    -r.createdAt
  }

  /**
   * The index page's list: the tracked requests, newest `created_at`
   * first; requests created at the same moment stay in table order.
   */
  function ActiveSearches(requests: seq<SearchRequest>): (r: seq<SearchRequest>)
    ensures forall x :: x in r <==> x in requests && x.isTracking
    ensures multiset(r) == multiset(TrackedOnly(requests))
  {
    var r := SortBy(TrackedOnly(requests), NewestFirst);
    assert forall x :: x in r <==> x in multiset(r);
    r
  }

  /** The list is ordered by `created_at`, newest first. */
  lemma ActiveSearchesNewestFirst(requests: seq<SearchRequest>)
    ensures forall i, j :: 0 <= i < j < |ActiveSearches(requests)| ==>
      ActiveSearches(requests)[i].createdAt >= ActiveSearches(requests)[j].createdAt
  {
    SortBySorted(TrackedOnly(requests), NewestFirst);
  }

  /**
   * `int(x)` on a float: the integer part, truncated toward zero (not the
   * floor, which differs for negative values).
   */
  function Trunc(x: real): (r: int)
    ensures x >= 0.0 ==> r >= 0 && r as real <= x < r as real + 1.0
    ensures x < 0.0 ==> r <= 0 && r as real - 1.0 < x <= r as real
  {
    if x >= 0.0 then x.Floor else -((-x).Floor)
  }

  /** `int(crawl_timestamp.timestamp() * 1000)`: the crawl time in whole milliseconds. */
  function TimestampMs(seconds: real): (ms: int)
    ensures seconds >= 0.0 ==> ms as real <= seconds * 1000.0 < ms as real + 1.0
  {
    Trunc(seconds * 1000.0)
  }

  /** One chart point, `[timestamp_ms, price]`. */
  datatype Point = Point(timestampMs: int, price: real)

  function PointOf(p: HotelPrice): Point {
    Point(TimestampMs(p.crawlTimestamp), p.price)
  }

  /** The sort key of `sort(key=lambda x: x[0])`. */
  function ByTime(pt: Point): real {
    pt.timestampMs as real
  }

  /** `chart_data`: hotel name to source site to series. */
  type Chart = map<string, map<string, seq<Point>>>

  /** The loop body of the grouping: the row's point appended to its hotel's source's series, created if need be. */
  function AddRow(chart: Chart, p: HotelPrice): Chart {
    var bySource := if p.hotelName in chart then chart[p.hotelName] else map[];
    var series := if p.sourceSite in bySource then bySource[p.sourceSite] else [];
    chart[p.hotelName := bySource[p.sourceSite := series + [PointOf(p)]]]
  }

  /** The grouping of a list of rows, one row at a time. */
  function Grouped(prices: seq<HotelPrice>): Chart {
    if |prices| == 0 then map[] else AddRow(Grouped(prices[..|prices| - 1]), prices[|prices| - 1])
  }

  /** The points of the rows of one hotel and one site, in row order: the reference for a series. */
  function SeriesOf(prices: seq<HotelPrice>, hotel: string, site: string): (r: seq<Point>)
    ensures |r| <= |prices|
  {
    if |prices| == 0 then []
    else
      var p := prices[|prices| - 1];
      SeriesOf(prices[..|prices| - 1], hotel, site) + (if p.hotelName == hotel && p.sourceSite == site then [PointOf(p)] else [])
  }

  predicate HasHotel(prices: seq<HotelPrice>, hotel: string) {
    exists i :: 0 <= i < |prices| && prices[i].hotelName == hotel
  }

  /**
   * The grouping has a hotel exactly when some row names it, a series
   * exactly when some row has that hotel and site, and each series is the
   * points of those rows in row order.
   */
  lemma {:induction false} GroupedAt(prices: seq<HotelPrice>, hotel: string, site: string)
    ensures hotel in Grouped(prices) <==> HasHotel(prices, hotel)
    ensures hotel in Grouped(prices) ==> (site in Grouped(prices)[hotel] <==> |SeriesOf(prices, hotel, site)| > 0)
    ensures hotel in Grouped(prices) && site in Grouped(prices)[hotel] ==> Grouped(prices)[hotel][site] == SeriesOf(prices, hotel, site)
    ensures hotel in Grouped(prices) && site !in Grouped(prices)[hotel] ==> SeriesOf(prices, hotel, site) == []
    ensures hotel !in Grouped(prices) ==> SeriesOf(prices, hotel, site) == []
  {
    if |prices| > 0 {
      var n := |prices| - 1;
      var init := prices[..n];
      var p := prices[n];
      GroupedAt(init, hotel, site);
      assert Grouped(prices) == AddRow(Grouped(init), p);
      assert SeriesOf(prices, hotel, site) == SeriesOf(init, hotel, site)
        + (if p.hotelName == hotel && p.sourceSite == site then [PointOf(p)] else []);
      if HasHotel(init, hotel) {
        var i :| 0 <= i < |init| && init[i].hotelName == hotel;
        assert prices[i] == init[i];
      }
      if HasHotel(prices, hotel) && p.hotelName != hotel {
        var i :| 0 <= i < |prices| && prices[i].hotelName == hotel;
        assert init[i] == prices[i];
      }
    }
  }

  /** The indices of the rows of one hotel and one site among the first `n`. */
  function MatchingRows(prices: seq<HotelPrice>, hotel: string, site: string, n: nat): set<nat>
    requires n <= |prices|
  {
    set i: nat | i < n && prices[i].hotelName == hotel && prices[i].sourceSite == site
  }

  /** Every row of a hotel and a site gives exactly one point of its series. */
  lemma {:induction false} SeriesCountsRows(prices: seq<HotelPrice>, hotel: string, site: string, n: nat)
    requires n <= |prices|
    ensures |SeriesOf(prices[..n], hotel, site)| == |MatchingRows(prices, hotel, site, n)|
  {
    if n > 0 {
      SeriesCountsRows(prices, hotel, site, n - 1);
      assert prices[..n][..n - 1] == prices[..n - 1];
      var p := prices[n - 1];
      if p.hotelName == hotel && p.sourceSite == site {
        assert MatchingRows(prices, hotel, site, n) == MatchingRows(prices, hotel, site, n - 1) + {n - 1};
      } else {
        assert MatchingRows(prices, hotel, site, n) == MatchingRows(prices, hotel, site, n - 1);
      }
    }
  }

  /** The grouping loop of `search_details`, over the rows in query order. */
  method GroupPrices(prices: seq<HotelPrice>) returns (chart: Chart)
    ensures chart == Grouped(prices)
  {
    chart := map[];
    for i := 0 to |prices|
      invariant chart == Grouped(prices[..i])
    {
      var p := prices[i];
      ghost var before := chart;
      if p.hotelName !in chart {
        chart := chart[p.hotelName := map[]];
      }
      var bySource := chart[p.hotelName];
      if p.sourceSite !in bySource {
        bySource := bySource[p.sourceSite := []];
      }
      bySource := bySource[p.sourceSite := bySource[p.sourceSite] + [PointOf(p)]];
      chart := chart[p.hotelName := bySource];
      ghost var oldSources := if p.hotelName in before then before[p.hotelName] else map[];
      ghost var oldSeries := if p.sourceSite in oldSources then oldSources[p.sourceSite] else [];
      assert bySource == oldSources[p.sourceSite := oldSeries + [PointOf(p)]];
      assert chart == before[p.hotelName := bySource];
      assert prices[..i + 1][..i] == prices[..i];
    }
    assert prices[..|prices|] == prices;
  }

  /** The inner sorting loop: every series of one hotel sorted by time. */
  method SortSources(bySource: map<string, seq<Point>>) returns (sorted: map<string, seq<Point>>)
    ensures sorted.Keys == bySource.Keys
    ensures forall s :: s in sorted ==> sorted[s] == SortBy(bySource[s], ByTime)
  {
    sorted := bySource;
    var todo := bySource.Keys;
    while todo != {}
      invariant todo <= bySource.Keys
      invariant sorted.Keys == bySource.Keys
      invariant forall s :: s in sorted && s !in todo ==> sorted[s] == SortBy(bySource[s], ByTime)
      invariant forall s :: s in todo ==> sorted[s] == bySource[s]
      decreases |todo|
    {
      var s :| s in todo;
      sorted := sorted[s := SortBy(sorted[s], ByTime)];
      todo := todo - {s};
    }
  }

  /** The outer sorting loop: every series of every hotel sorted by time. */
  method SortSeries(grouped: Chart) returns (chart: Chart)
    ensures chart.Keys == grouped.Keys
    ensures forall h :: h in chart ==> chart[h].Keys == grouped[h].Keys
    ensures forall h, s :: h in chart && s in chart[h] ==> chart[h][s] == SortBy(grouped[h][s], ByTime)
  {
    chart := grouped;
    var todo := grouped.Keys;
    while todo != {}
      invariant todo <= grouped.Keys
      invariant chart.Keys == grouped.Keys
      invariant forall h :: h in chart ==> chart[h].Keys == grouped[h].Keys
      invariant forall h, s :: h in chart && h !in todo && s in chart[h] ==> chart[h][s] == SortBy(grouped[h][s], ByTime)
      invariant forall h :: h in todo ==> chart[h] == grouped[h]
      decreases |todo|
    {
      var h :| h in todo;
      var sorted := SortSources(chart[h]);
      chart := chart[h := sorted];
      todo := todo - {h};
    }
  }

  /**
   * `chart_data` of `search_details`: a hotel for every hotel named by a
   * row, a series for every site it was seen on, and each series the
   * points of exactly those rows sorted by time.
   */
  method BuildChartData(prices: seq<HotelPrice>) returns (chart: Chart)
    ensures forall h :: h in chart <==> HasHotel(prices, h)
    ensures forall h, s :: h in chart ==> (s in chart[h] <==> |SeriesOf(prices, h, s)| > 0)
    ensures forall h, s :: h in chart && s in chart[h] ==> chart[h][s] == SortBy(SeriesOf(prices, h, s), ByTime)
  {
    var grouped := GroupPrices(prices);
    chart := SortSeries(grouped);
    forall h
      ensures h in chart <==> HasHotel(prices, h)
    {
      GroupedAt(prices, h, "");
    }
    forall h, s
      ensures h in chart ==> (s in chart[h] <==> |SeriesOf(prices, h, s)| > 0)
      ensures h in chart && s in chart[h] ==> chart[h][s] == SortBy(SeriesOf(prices, h, s), ByTime)
    {
      GroupedAt(prices, h, s);
    }
  }

  /**
   * A series is sorted by time, holds one point per matching row, and
   * points with the same millisecond keep the query's order.
   */
  lemma ChartSeriesProperties(prices: seq<HotelPrice>, hotel: string, site: string, ms: int)
    ensures SortedBy(SortBy(SeriesOf(prices, hotel, site), ByTime), ByTime)
    ensures multiset(SortBy(SeriesOf(prices, hotel, site), ByTime)) == multiset(SeriesOf(prices, hotel, site))
    ensures |SortBy(SeriesOf(prices, hotel, site), ByTime)| == |MatchingRows(prices, hotel, site, |prices|)|
    ensures WithKey(SortBy(SeriesOf(prices, hotel, site), ByTime), ByTime, ms as real)
      == WithKey(SeriesOf(prices, hotel, site), ByTime, ms as real)
  {
    SortBySorted(SeriesOf(prices, hotel, site), ByTime);
    SortByStable(SeriesOf(prices, hotel, site), ByTime, ms as real);
    SeriesCountsRows(prices, hotel, site, |prices|);
    assert prices[..|prices|] == prices;
  }
}
