/**
 * `PerformanceMonitor`, `AlertManager` and the Prometheus text of
 * `MetricsExporter`. Times are seconds since the epoch as exact reals;
 * the clock is a parameter. The lock is not modelled: every method runs
 * alone.
 */
module Monitoring {
  import opened Basics
  import opened Text
  import opened Seqs

  /** `ScrapingMetrics`: one tracked scraping attempt. */
  datatype Metric = Metric(
    siteName: string,
    startTime: real,
    endTime: real,
    duration: real,
    success: bool,
    errorMessage: Option<string>,
    resultsCount: int,
    requestId: Option<int>)

  datatype LastError = LastError(time: real, message: Option<string>)

  /** One entry of `site_stats`. */
  datatype SiteStats = SiteStats(
    total: nat,
    successful: nat,
    failed: nat,
    totalDuration: real,
    totalResults: int,
    lastSuccess: Option<real>,
    lastError: Option<LastError>)

  /** The entry the `defaultdict` creates for a site it has not seen. */
  const ZeroStats: SiteStats := SiteStats(0, 0, 0, 0.0, 0, None, None)

  /** Every request of a site either succeeded or failed. */
  predicate Balanced(s: SiteStats) {
    s.total == s.successful + s.failed
  }

  /**
   * The site entry after `record_metrics`: one more request, its duration
   * and results added, and exactly one of the success and failure counts
   * moved on, with the matching last-time field.
   */
  function Record(s: SiteStats, m: Metric): (r: SiteStats)
    ensures r.total == s.total + 1
    ensures r.successful + r.failed == s.successful + s.failed + 1
    ensures m.success <==> r.successful == s.successful + 1
    ensures m.success ==> r.lastSuccess == Some(m.endTime) && r.lastError == s.lastError
    ensures !m.success ==> r.lastError == Some(LastError(m.endTime, m.errorMessage)) && r.lastSuccess == s.lastSuccess
    ensures Balanced(s) ==> Balanced(r)
  {
    var s1 := s.(total := s.total + 1, totalDuration := s.totalDuration + m.duration,
                 totalResults := s.totalResults + m.resultsCount);
    if m.success then s1.(successful := s.successful + 1, lastSuccess := Some(m.endTime))
    else s1.(failed := s.failed + 1, lastError := Some(LastError(m.endTime, m.errorMessage)))
  }

  /** The metric `track_scraping` records: success exactly when the body did not raise, and never any results. */
  function TrackedMetric(siteName: string, requestId: Option<int>, start: real, end: real, raised: Option<string>): (m: Metric)
    ensures m.success <==> raised.None?
    ensures m.errorMessage == raised && m.resultsCount == 0
    ensures m.duration == end - start && m.siteName == siteName
  {
    Metric(siteName, start, end, end - start, raised.None?, raised, 0, requestId)
  }

  /** What `get_site_statistics` returns: the counters and three ratios. */
  datatype SiteView = SiteView(stats: SiteStats, successRate: real, averageDuration: real, averageResults: real)

  /** Python's `part / whole` for a positive count. */
  function Ratio(part: real, whole: nat): (r: real)
    requires whole > 0
    ensures r * (whole as real) == part
    ensures 0.0 <= part <= whole as real ==> 0.0 <= r <= 1.0
  {
    part / whole as real
  }

  /** The ratios of a site entry, zero for a site with no request. */
  function ViewOf(s: SiteStats): (v: SiteView)
    ensures v.stats == s
    ensures s.total == 0 ==> v.successRate == 0.0 && v.averageDuration == 0.0 && v.averageResults == 0.0
    ensures s.total > 0 ==> v.successRate * (s.total as real) == s.successful as real
    ensures s.total > 0 ==> v.averageDuration * (s.total as real) == s.totalDuration
    ensures Balanced(s) ==> 0.0 <= v.successRate <= 1.0
  {
    if s.total > 0 then
      SiteView(s, Ratio(s.successful as real, s.total), Ratio(s.totalDuration, s.total), Ratio(s.totalResults as real, s.total))
    else SiteView(s, 0.0, 0.0, 0.0)
  }

  /** Six successes out of ten requests is a success rate of 0.6. */
  lemma SixOfTen(s: SiteStats)
    requires s.total == 10 && s.successful == 6
    ensures ViewOf(s).successRate == 0.6
  {
  }

  /** `is_site_healthy`: the success rate reaches the minimum (0.8 by default). */
  predicate Healthy(s: SiteStats, minSuccessRate: real) {
    ViewOf(s).successRate >= minSuccessRate
  }

  const DefaultMinSuccessRate: real := 0.8

  /** A site nobody has asked about is not healthy for any positive minimum. */
  lemma UnseenSiteUnhealthy(minSuccessRate: real)
    requires minSuccessRate > 0.0
    ensures !Healthy(ZeroStats, minSuccessRate)
  {
  }

  /** How many of the metrics are successes. */
  function SuccessCount(h: seq<Metric>): (n: nat)
    ensures n <= |h|
  {
    if |h| == 0 then 0 else (if h[0].success then 1 else 0) + SuccessCount(h[1..])
  }

  function DurationSum(h: seq<Metric>): real {
    if |h| == 0 then 0.0 else h[0].duration + DurationSum(h[1..])
  }

  /** What `get_overall_statistics` returns. */
  datatype Overall = Overall(
    total: nat,
    successful: nat,
    failed: int,
    successRate: real,
    averageDuration: real,
    sites: seq<(string, SiteView)>)

  /** The view of every site, in the order the sites were first seen. */
  function SiteViews(sites: seq<string>, stats: map<string, SiteStats>): (r: seq<(string, SiteView)>)
    requires forall s :: s in sites ==> s in stats
    ensures |r| == |sites|
    ensures forall i :: 0 <= i < |r| ==> r[i] == (sites[i], ViewOf(stats[sites[i]]))
  {
    if |sites| == 0 then [] else SiteViews(sites[..|sites| - 1], stats) + [(sites[|sites| - 1], ViewOf(stats[sites[|sites| - 1]]))]
  }

  /**
   * `get_overall_statistics`: totals over the bounded history, not over
   * the cumulative site counters, and nothing at all for an empty history.
   */
  function OverallOf(history: seq<Metric>, sites: seq<string>, stats: map<string, SiteStats>): (o: Overall)
    requires forall s :: s in sites ==> s in stats
    ensures |history| == 0 ==> o == Overall(0, 0, 0, 0.0, 0.0, [])
    ensures |history| > 0 ==> o.total == |history| && o.successful == SuccessCount(history)
    ensures |history| > 0 ==> o.successful + o.failed == o.total && o.failed >= 0
    ensures |history| > 0 ==> o.successRate * (o.total as real) == o.successful as real && 0.0 <= o.successRate <= 1.0
    ensures |history| > 0 ==> o.sites == SiteViews(sites, stats)
  {
    if |history| == 0 then Overall(0, 0, 0, 0.0, 0.0, [])
    else
      HistoryOverall(history, SiteViews(sites, stats))
  }

  /** The totals of a non-empty history, with the per-site views alongside. */
  function HistoryOverall(history: seq<Metric>, views: seq<(string, SiteView)>): (o: Overall)
    requires |history| > 0
    ensures o.total == |history| && o.successful == SuccessCount(history)
    ensures o.successful + o.failed == o.total && o.failed >= 0
    ensures o.successRate * (o.total as real) == o.successful as real && 0.0 <= o.successRate <= 1.0
    ensures o.averageDuration * (o.total as real) == DurationSum(history)
    ensures o.sites == views
  {
    var ok := SuccessCount(history);
    Overall(|history|, ok, |history| - ok, Ratio(ok as real, |history|), Ratio(DurationSum(history), |history|), views)
  }

  /**
   * `get_site_statistics` called by a thread that may already hold the
   * monitor's lock. The lock is a plain `threading.Lock`, which is not
   * re-entrant: taking it again blocks for ever, written `None`.
   */
  function SiteStatisticsLocked(held: bool, s: SiteStats): (r: Option<SiteView>)
    ensures r.None? <==> held
    ensures r.Some? ==> r.value == ViewOf(s)
  {
    if held then None else Some(ViewOf(s))
  }

  /** The per-site loop of `get_overall_statistics`; `None` once one call blocks. */
  function SiteViewsLocked(held: bool, sites: seq<string>, stats: map<string, SiteStats>): (r: Option<seq<(string, SiteView)>>)
    requires forall s :: s in sites ==> s in stats
  {
    if |sites| == 0 then Some([])
    else
      var n := |sites| - 1;
      var prefix := SiteViewsLocked(held, sites[..n], stats);
      var view := SiteStatisticsLocked(held, stats[sites[n]]);
      if prefix.None? || view.None? then None else Some(prefix.value + [(sites[n], view.value)])
  }

  /** Without the lock held the loop gives every site's view; with it held, it blocks at the first site. */
  lemma {:induction false} SiteViewsLockedSpec(held: bool, sites: seq<string>, stats: map<string, SiteStats>)
    requires forall s :: s in sites ==> s in stats
    ensures SiteViewsLocked(held, sites, stats).None? <==> held && |sites| > 0
    ensures !held ==> SiteViewsLocked(held, sites, stats) == Some(SiteViews(sites, stats))
  {
    if |sites| > 0 {
      SiteViewsLockedSpec(held, sites[..|sites| - 1], stats);
    }
  }

  /**
   * `get_overall_statistics` as written: it takes the lock and, holding
   * it, calls `get_site_statistics` for every site, so `None` (a call that
   * never returns) as soon as there is a metric and a site.
   */
  function OverallAsWritten(history: seq<Metric>, sites: seq<string>, stats: map<string, SiteStats>): (r: Option<Overall>)
    requires forall s :: s in sites ==> s in stats
  {
    if |history| == 0 then Some(Overall(0, 0, 0, 0.0, 0.0, []))
    else
      var views := SiteViewsLocked(true, sites, stats);
      if views.None? then None
      else
        Some(HistoryOverall(history, views.value))
  }

  /** As written, the overall statistics return only while nothing has been recorded, and then agree with `OverallOf`. */
  lemma OverallAsWrittenBlocks(history: seq<Metric>, sites: seq<string>, stats: map<string, SiteStats>)
    requires forall s :: s in sites ==> s in stats
    ensures OverallAsWritten(history, sites, stats).None? <==> |history| > 0 && |sites| > 0
    ensures OverallAsWritten(history, sites, stats).Some? ==> OverallAsWritten(history, sites, stats).value == OverallOf(history, sites, stats)
  {
    SiteViewsLockedSpec(true, sites, stats);
  }

  /** One entry of `get_recent_errors`; the time stays a number. */
  datatype ErrorEntry = ErrorEntry(siteName: string, errorMessage: Option<string>, time: real, requestId: Option<int>)

  function EntryOf(m: Metric): ErrorEntry {
    ErrorEntry(m.siteName, m.errorMessage, m.endTime, m.requestId)
  }

  /** The failures of a history, newest first. */
  function FailuresNewestFirst(h: seq<Metric>): (r: seq<ErrorEntry>)
    ensures |r| <= |h|
  {
    if |h| == 0 then [] else FailuresNewestFirst(h[1..]) + (if h[0].success then [] else [EntryOf(h[0])])
  }

  /** Every listed error is a failed metric of the history. */
  lemma {:induction false} FailuresFromHistory(h: seq<Metric>, k: nat)
    requires k < |FailuresNewestFirst(h)|
    ensures exists i :: 0 <= i < |h| && !h[i].success && EntryOf(h[i]) == FailuresNewestFirst(h)[k]
  {
    var rest := FailuresNewestFirst(h[1..]);
    if k < |rest| {
      FailuresFromHistory(h[1..], k);
      var i :| 0 <= i < |h[1..]| && !h[1..][i].success && EntryOf(h[1..][i]) == rest[k];
      assert h[i + 1] == h[1..][i];
    } else {
      assert !h[0].success;
    }
  }

  /** The newest failure comes first. */
  lemma {:induction false} NewestFailureFirst(h: seq<Metric>)
    requires |h| > 0 && !h[|h| - 1].success
    ensures |FailuresNewestFirst(h)| > 0 && FailuresNewestFirst(h)[0] == EntryOf(h[|h| - 1])
  {
    if |h| > 1 {
      NewestFailureFirst(h[1..]);
    }
  }

  /** `get_recent_errors(limit)`: at most `limit` failures, newest first. */
  function RecentErrors(h: seq<Metric>, limit: int): (r: seq<ErrorEntry>)
    ensures limit <= 0 ==> r == []
    ensures |r| <= |FailuresNewestFirst(h)| && (limit > 0 ==> |r| <= limit)
    ensures r == FailuresNewestFirst(h)[..|r|]
  {
    Take(FailuresNewestFirst(h), limit)
  }

  /**
   * The invariant of a `PerformanceMonitor`: the history is within its
   * bound and holds only sites that have counters, the sites are the
   * counters' keys once each, and every site is balanced.
   */
  ghost predicate Consistent(maxHistory: nat, history: seq<Metric>, sites: seq<string>, stats: map<string, SiteStats>) {
    && |history| <= maxHistory
    && (forall i :: 0 <= i < |history| ==> history[i].siteName in stats)
    && (forall s :: s in stats <==> s in sites)
    && (forall i, j :: 0 <= i < j < |sites| ==> sites[i] != sites[j])
    && (forall s :: s in stats ==> Balanced(stats[s]))
  }

  /** Recording a metric keeps the monitor consistent. */
  lemma RecordConsistent(maxHistory: nat, history: seq<Metric>, sites: seq<string>, stats: map<string, SiteStats>, m: Metric)
    requires Consistent(maxHistory, history, sites, stats)
    ensures Consistent(maxHistory, Push(history, m, maxHistory),
      if m.siteName in stats then sites else sites + [m.siteName],
      stats[m.siteName := Record(if m.siteName in stats then stats[m.siteName] else ZeroStats, m)])
  {
    var stats' := stats[m.siteName := Record(if m.siteName in stats then stats[m.siteName] else ZeroStats, m)];
    PushKeepsSites(history, m, maxHistory, stats');
  }

  /** `PerformanceMonitor`: the bounded history and the per-site counters, sites in the order first seen. */
  class PerformanceMonitor {
    const maxHistory: nat
    var history: seq<Metric>
    var sites: seq<string>
    var stats: map<string, SiteStats>

    ghost predicate Valid()
      reads this
    {
      Consistent(maxHistory, history, sites, stats)
    }

    /** The counters of a site, zero for one not seen yet. */
    function StatsOf(site: string): SiteStats
      reads this
    {
      if site in stats then stats[site] else ZeroStats
    }

    constructor(maxHistory: nat)
      ensures Valid()
      ensures this.maxHistory == maxHistory && history == [] && sites == [] && stats == map[]
    {
      this.maxHistory := maxHistory;
      history := [];
      sites := [];
      stats := map[];
    }

    /** Touching the entry of a site, as `defaultdict` lookup does: a zero entry for a site not seen yet. */
    method Touch(site: string)
      requires Valid()
      modifies this
      ensures Valid()
      ensures stats == old(stats)[site := old(StatsOf(site))]
      ensures sites == if site in old(stats) then old(sites) else old(sites) + [site]
      ensures history == old(history)
    {
      if site !in stats {
        stats := stats[site := ZeroStats];
        sites := sites + [site];
      }
    }

    /** `record_metrics`: the metric joins the bounded history and its site's entry is updated. */
    method RecordMetrics(m: Metric)
      requires Valid()
      modifies this
      ensures Valid()
      ensures history == Push(old(history), m, maxHistory)
      ensures stats == old(stats)[m.siteName := Record(old(StatsOf(m.siteName)), m)]
      ensures sites == if m.siteName in old(stats) then old(sites) else old(sites) + [m.siteName]
    {
      RecordConsistent(maxHistory, history, sites, stats, m);
      if m.siteName !in stats {
        sites := sites + [m.siteName];
      }
      stats := stats[m.siteName := Record(StatsOf(m.siteName), m)];
      history := Push(history, m, maxHistory);
    }

    /**
     * `track_scraping` around a body that ran from `start` to `end` and
     * raised `raised`, if anything: exactly one metric is recorded and the
     * exception is passed on.
     */
    method TrackScraping(siteName: string, requestId: Option<int>, start: real, end: real, raised: Option<string>)
      returns (reraised: Option<string>)
      requires Valid()
      modifies this
      ensures Valid()
      ensures reraised == raised
      ensures history == Push(old(history), TrackedMetric(siteName, requestId, start, end, raised), maxHistory)
      ensures stats == old(stats)[siteName := Record(old(StatsOf(siteName)), TrackedMetric(siteName, requestId, start, end, raised))]
      ensures sites == if siteName in old(stats) then old(sites) else old(sites) + [siteName]
    {
      RecordMetrics(TrackedMetric(siteName, requestId, start, end, raised));
      reraised := raised;
    }

    /** `get_site_statistics`: the site's ratios; a site not seen yet gets a zero entry. */
    method GetSiteStatistics(site: string) returns (v: SiteView)
      requires Valid()
      modifies this
      ensures Valid()
      ensures v == ViewOf(old(StatsOf(site)))
      ensures stats == old(stats)[site := old(StatsOf(site))]
      ensures sites == if site in old(stats) then old(sites) else old(sites) + [site]
      ensures history == old(history)
    {
      Touch(site);
      v := ViewOf(stats[site]);
    }

    /** `is_site_healthy`. */
    method IsSiteHealthy(site: string, minSuccessRate: real) returns (healthy: bool)
      requires Valid()
      modifies this
      ensures Valid()
      ensures healthy == Healthy(old(StatsOf(site)), minSuccessRate)
      ensures stats == old(stats)[site := old(StatsOf(site))]
      ensures sites == if site in old(stats) then old(sites) else old(sites) + [site]
      ensures history == old(history)
    {
      var v := GetSiteStatistics(site);
      healthy := v.successRate >= minSuccessRate;
    }

    /**
     * `get_overall_statistics` with the lock taken once for the whole call
     * (see `OverallAsWritten` for the code as it stands), the per-site
     * entries collected one site at a time.
     */
    method GetOverallStatistics() returns (o: Overall)
      requires Valid()
      ensures o == OverallOf(history, sites, stats)
    {
      if |history| == 0 {
        return Overall(0, 0, 0, 0.0, 0.0, []);
      }
      var views: seq<(string, SiteView)> := [];
      var i := 0;
      while i < |sites|
        invariant 0 <= i <= |sites|
        invariant views == SiteViews(sites[..i], stats)
      {
        assert sites[..i + 1][..i] == sites[..i];
        views := views + [(sites[i], ViewOf(stats[sites[i]]))];
        i := i + 1;
      }
      assert sites[..|sites|] == sites;
      o := HistoryOverall(history, views);
    }

    /** `get_recent_errors`: the history walked from the newest metric, failures kept while there is room. */
    method GetRecentErrors(limit: int) returns (errors: seq<ErrorEntry>)
      ensures errors == RecentErrors(history, limit)
    {
      errors := [];
      var i := |history|;
      while i > 0
        invariant 0 <= i <= |history|
        invariant errors == Take(FailuresNewestFirst(history[i..]), limit)
      {
        i := i - 1;
        var m := history[i];
        assert history[i..][1..] == history[i + 1..];
        TakeSnoc(FailuresNewestFirst(history[i + 1..]), EntryOf(m), limit);
        if !m.success && |errors| < limit {
          errors := errors + [EntryOf(m)];
        }
      }
      assert history[0..] == history;
    }
  }

  /** The bounded history only ever holds metrics of sites that have counters. */
  lemma PushKeepsSites(h: seq<Metric>, m: Metric, bound: nat, stats: map<string, SiteStats>)
    requires forall i :: 0 <= i < |h| ==> h[i].siteName in stats
    requires m.siteName in stats
    ensures forall i :: 0 <= i < |Push(h, m, bound)| ==> Push(h, m, bound)[i].siteName in stats
  {
    var r := Push(h, m, bound);
    forall i | 0 <= i < |r|
      ensures r[i].siteName in stats
    {
      var all := h + [m];
      assert r[i] == all[|all| - |r| + i];
    }
  }

  /**
   * Once a monitor has recorded a metric it has a site, so the overall
   * statistics as written never return; the corrected `OverallOf` does.
   */
  lemma RecordedMonitorDeadlocks(monitor: PerformanceMonitor)
    requires monitor.Valid() && |monitor.history| > 0
    ensures OverallAsWritten(monitor.history, monitor.sites, monitor.stats).None?
  {
    assert monitor.history[0].siteName in monitor.stats;
    assert monitor.history[0].siteName in monitor.sites;
    OverallAsWrittenBlocks(monitor.history, monitor.sites, monitor.stats);
  }

  /** Recording keeps every site balanced, so success and failure counts always add up to the total. */
  lemma RecordKeepsBalance(s: SiteStats, m: Metric)
    requires Balanced(s)
    ensures Balanced(Record(s, m)) && Record(s, m).successful <= Record(s, m).total
  {
  }

  /** One alert as kept in `alert_history`; the message text is not modelled. */
  datatype Alert = Alert(alertType: string, siteName: string, time: real)

  const LowSuccessRate: string := "low_success_rate"
  const SlowResponse: string := "slow_response"
  /** `min_alert_interval`: five minutes between alerts of one type for one site. */
  const AlertCooldown: real := 300.0
  /** `alert_history` keeps the newest hundred alerts. */
  const MaxAlerts: nat := 100
  /** The success rate is judged only from five requests on. */
  const MinRequestsForRate: nat := 5

  /** `monitoring.alert_thresholds`: `error_rate` (0.1 by default) and `response_time` (30 by default). */
  datatype Thresholds = Thresholds(errorRate: real, responseTime: real)

  const DefaultThresholds: Thresholds := Thresholds(0.1, 30.0)

  /** The alert types a site's view calls for, in the order they are checked. */
  function AlertTypes(v: SiteView, th: Thresholds): (r: seq<string>)
    ensures LowSuccessRate in r <==> v.stats.total >= MinRequestsForRate && v.successRate < 1.0 - th.errorRate
    ensures SlowResponse in r <==> v.averageDuration > th.responseTime
    ensures |r| <= 2
  {
    (if v.stats.total >= MinRequestsForRate && v.successRate < 1.0 - th.errorRate then [LowSuccessRate] else [])
    + (if v.averageDuration > th.responseTime then [SlowResponse] else [])
  }

  /** The `(type, site)` alerts a check asks for, site by site in the order the sites were first seen. */
  function PendingAlerts(sites: seq<string>, stats: map<string, SiteStats>, th: Thresholds): seq<(string, string)>
    requires forall s :: s in sites ==> s in stats
  {
    if |sites| == 0 then []
    else
      var n := |sites| - 1;
      var types := AlertTypes(ViewOf(stats[sites[n]]), th);
      PendingAlerts(sites[..n], stats, th) + Tagged(types, sites[n])
  }

  /** The alerts of one site: each type paired with the site, in order. */
  function Tagged(types: seq<string>, site: string): (r: seq<(string, string)>)
    ensures |r| == |types|
  {
    seq(|types|, k requires 0 <= k < |types| => (types[k], site))
  }

  /** One more type adds its alert at the end. */
  lemma TaggedSnoc(types: seq<string>, site: string, k: nat)
    requires k < |types|
    ensures Tagged(types[..k + 1], site) == Tagged(types[..k], site) + [(types[k], site)]
  {
  }

  /** One more site adds its alerts at the end. */
  lemma PendingAlertsSnoc(sites: seq<string>, stats: map<string, SiteStats>, th: Thresholds, i: nat)
    requires forall s :: s in sites ==> s in stats
    requires i < |sites|
    ensures PendingAlerts(sites[..i + 1], stats, th)
      == PendingAlerts(sites[..i], stats, th) + Tagged(AlertTypes(ViewOf(stats[sites[i]]), th), sites[i])
  {
    assert sites[..i + 1][..i] == sites[..i];
  }

  /** `alert_key`. */
  function AlertKey(alertType: string, site: string): string {
    alertType + "_" + site
  }

  /** The state of an `AlertManager`: the bounded alert history and the last time of each alert key. */
  datatype AlertState = AlertState(history: seq<Alert>, lastTimes: map<string, real>)

  function LastAlertTime(last: map<string, real>, key: string): real {
    if key in last then last[key] else 0.0
  }

  /**
   * `_send_alert`: nothing when the same key fired less than the cooldown
   * ago (a key that never fired counts as having fired at time zero);
   * otherwise the time is recorded and exactly one alert is appended.
   */
  function SendStep(st: AlertState, alertType: string, site: string, now: real): (r: AlertState)
    ensures now - LastAlertTime(st.lastTimes, AlertKey(alertType, site)) < AlertCooldown ==> r == st
    ensures now - LastAlertTime(st.lastTimes, AlertKey(alertType, site)) >= AlertCooldown ==>
      r.history == Push(st.history, Alert(alertType, site, now), MaxAlerts)
      && r.lastTimes == st.lastTimes[AlertKey(alertType, site) := now]
  {
    var key := AlertKey(alertType, site);
    if now - LastAlertTime(st.lastTimes, key) < AlertCooldown then st
    else AlertState(Push(st.history, Alert(alertType, site, now), MaxAlerts), st.lastTimes[key := now])
  }

  /** Two breaches of one kind for one site within the cooldown give one alert. */
  lemma CooldownSuppresses(st: AlertState, alertType: string, site: string, first: real, second: real)
    requires first <= second < first + AlertCooldown
    requires first - LastAlertTime(st.lastTimes, AlertKey(alertType, site)) >= AlertCooldown
    ensures SendStep(SendStep(st, alertType, site, first), alertType, site, second) == SendStep(st, alertType, site, first)
  {
  }

  /** The alerts, sent one after another. */
  function SendAll(st: AlertState, alerts: seq<(string, string)>, now: real): AlertState
    decreases |alerts|
  {
    if |alerts| == 0 then st else SendAll(SendStep(st, alerts[0].0, alerts[0].1, now), alerts[1..], now)
  }

  lemma {:induction false} SendAllAppend(st: AlertState, a: seq<(string, string)>, b: seq<(string, string)>, now: real)
    ensures SendAll(st, a + b, now) == SendAll(SendAll(st, a, now), b, now)
    decreases |a|
  {
    if |a| > 0 {
      assert (a + b)[0] == a[0] && (a + b)[1..] == a[1..] + b;
      SendAllAppend(SendStep(st, a[0].0, a[0].1, now), a[1..], b, now);
    } else {
      assert a + b == b;
    }
  }

  /** The alert history never grows past its bound. */
  lemma {:induction false} SendAllBounded(st: AlertState, alerts: seq<(string, string)>, now: real)
    requires |st.history| <= MaxAlerts
    ensures |SendAll(st, alerts, now).history| <= MaxAlerts
    decreases |alerts|
  {
    if |alerts| > 0 {
      SendAllBounded(SendStep(st, alerts[0].0, alerts[0].1, now), alerts[1..], now);
    }
  }

  /** `AlertManager`: the thresholds, the alert history and the last time of each alert key. */
  class AlertManager {
    const thresholds: Thresholds
    var history: seq<Alert>
    var lastTimes: map<string, real>

    constructor(thresholds: Thresholds)
      ensures this.thresholds == thresholds && history == [] && lastTimes == map[]
    {
      this.thresholds := thresholds;
      history := [];
      lastTimes := map[];
    }

    /** `_send_alert` at clock reading `now`. */
    method SendAlert(alertType: string, site: string, now: real)
      modifies this
      ensures AlertState(history, lastTimes) == SendStep(old(AlertState(history, lastTimes)), alertType, site, now)
    {
      var key := AlertKey(alertType, site);
      var last := if key in lastTimes then lastTimes[key] else 0.0;
      if now - last < AlertCooldown {
        return;
      }
      lastTimes := lastTimes[key := now];
      history := Push(history, Alert(alertType, site, now), MaxAlerts);
    }

    /** `check_and_send_alerts` at clock reading `now`: each site's alerts, site by site. */
    method CheckAndSendAlerts(monitor: PerformanceMonitor, now: real)
      requires monitor.Valid()
      modifies this
      ensures AlertState(history, lastTimes)
        == SendAll(old(AlertState(history, lastTimes)), PendingAlerts(monitor.sites, monitor.stats, thresholds), now)
    {
      ghost var start := AlertState(history, lastTimes);
      var i := 0;
      while i < |monitor.sites|
        invariant 0 <= i <= |monitor.sites|
        invariant AlertState(history, lastTimes) == SendAll(start, PendingAlerts(monitor.sites[..i], monitor.stats, thresholds), now)
      {
        var site := monitor.sites[i];
        var types := AlertTypes(ViewOf(monitor.stats[site]), thresholds);
        ghost var before := AlertState(history, lastTimes);
        var k := 0;
        while k < |types|
          invariant 0 <= k <= |types|
          invariant AlertState(history, lastTimes) == SendAll(before, Tagged(types[..k], site), now)
        {
          SendAlert(types[k], site, now);
          SendAllAppend(before, Tagged(types[..k], site), [(types[k], site)], now);
          TaggedSnoc(types, site, k);
          k := k + 1;
        }
        assert types[..|types|] == types;
        SendAllAppend(start, PendingAlerts(monitor.sites[..i], monitor.stats, thresholds), Tagged(types, site), now);
        PendingAlertsSnoc(monitor.sites, monitor.stats, thresholds, i);
        i := i + 1;
      }
      assert monitor.sites[..|monitor.sites|] == monitor.sites;
    }
  }

  /**
   * The lines of `get_prometheus_metrics`: three for the request total,
   * three for the success rate, and three per site. `num` is Python's
   * rendering of a float; an integer zero renders as `0`.
   */
  function PrometheusLines(o: Overall, num: real -> string): (lines: seq<string>)
    ensures |lines| == 6 + 3 * |o.sites|
  {
    HeaderLines(o, num) + SiteLines(o.sites, num)
  }

  function HeaderLines(o: Overall, num: real -> string): (lines: seq<string>)
    ensures |lines| == 6
  {
    ["# HELP hotel_scraper_total_requests Total number of scraping requests",
     "# TYPE hotel_scraper_total_requests counter",
     "hotel_scraper_total_requests " + IntToString(o.total),
     "# HELP hotel_scraper_success_rate Success rate of scraping requests",
     "# TYPE hotel_scraper_success_rate gauge",
     "hotel_scraper_success_rate " + (if o.total == 0 then "0" else num(o.successRate))]
  }

  /** The three lines of one site. */
  function SiteEntryLines(name: string, v: SiteView, num: real -> string): (lines: seq<string>)
    ensures |lines| == 3
  {
    var siteTag := "{site=\"" + name + "\"} ";
    ["hotel_scraper_site_requests" + siteTag + IntToString(v.stats.total),
     "hotel_scraper_site_success_rate" + siteTag + (if v.stats.total == 0 then "0" else num(v.successRate)),
     "hotel_scraper_site_avg_duration" + siteTag + (if v.stats.total == 0 then "0" else num(v.averageDuration))]
  }

  /** Three lines per site, in the order of the sites. */
  function SiteLines(sites: seq<(string, SiteView)>, num: real -> string): (lines: seq<string>)
    ensures |lines| == 3 * |sites|
  {
    if |sites| == 0 then []
    else SiteLines(sites[..|sites| - 1], num) + SiteEntryLines(sites[|sites| - 1].0, sites[|sites| - 1].1, num)
  }

  /**
   * `get_prometheus_metrics`: the lines joined by line feeds; with no site
   * name or rendered number holding a line feed, the text has exactly
   * `5 + 3 * sites` line feeds.
   */
  lemma PrometheusLineCount(o: Overall, num: real -> string)
    requires forall i :: 0 <= i < |PrometheusLines(o, num)| ==> '\n' !in PrometheusLines(o, num)[i]
    ensures CountChar(Join(PrometheusLines(o, num), "\n"), '\n') == 5 + 3 * |o.sites|
  {
    JoinLineCount(PrometheusLines(o, num));
  }

  /** The lines of one `(name, view)` entry. */
  function SiteEntry(num: real -> string): ((string, SiteView)) -> seq<string> {
    (e: (string, SiteView)) => SiteEntryLines(e.0, e.1, num)
  }

  /** The per-site lines are each entry's three lines, concatenated in order. */
  lemma {:induction false} SiteLinesAreEntries(sites: seq<(string, SiteView)>, num: real -> string)
    ensures SiteLines(sites, num) == ConcatMap(sites, SiteEntry(num))
  {
    if |sites| > 0 {
      SiteLinesAreEntries(sites[..|sites| - 1], num);
    }
  }

  /** The per-site loop of `get_prometheus_metrics`: three lines appended per site. */
  method AppendSiteLines(lines: seq<string>, sites: seq<(string, SiteView)>, num: real -> string) returns (r: seq<string>)
    ensures r == lines + SiteLines(sites, num)
  {
    r := AppendEach(lines, sites, SiteEntry(num));
    SiteLinesAreEntries(sites, num);
  }

  /** `MetricsExporter` over a monitor. */
  class MetricsExporter {
    const monitor: PerformanceMonitor

    constructor(monitor: PerformanceMonitor)
      ensures this.monitor == monitor
    {
      this.monitor := monitor;
    }

    /** `get_prometheus_metrics`: the lines built one by one, then joined by line feeds. */
    method GetPrometheusMetrics(num: real -> string) returns (text: string)
      requires monitor.Valid()
      ensures text == Join(PrometheusLines(OverallOf(monitor.history, monitor.sites, monitor.stats), num), "\n")
    {
      var o := monitor.GetOverallStatistics();
      var lines := AppendSiteLines(HeaderLines(o, num), o.sites, num);
      text := Join(lines, "\n");
    }
  }
}
