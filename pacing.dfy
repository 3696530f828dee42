/**
 * The pacing helpers of the scraper: proxy rotation, the requests-per-
 * minute limiter and the per-site delay. Clock readings and random draws
 * are parameters; a requested sleep is returned instead of performed.
 */
module Pacing {
  import opened Basics
  import opened Text

  /** The proxies of `proxies` that are not in `failed`, in pool order. */
  function Available(proxies: seq<string>, failed: set<string>): (r: seq<string>)
    ensures forall p :: p in r <==> p in proxies && p !in failed
    ensures |r| <= |proxies|
  {
    if |proxies| == 0 then []
    else (if proxies[0] in failed then [] else [proxies[0]]) + Available(proxies[1..], failed)
  }

  /** With no failure, every proxy is available, in pool order. */
  lemma {:induction false} AvailableNoFailures(proxies: seq<string>)
    ensures Available(proxies, {}) == proxies
  {
    if |proxies| > 0 {
      AvailableNoFailures(proxies[1..]);
      assert proxies == [proxies[0]] + proxies[1..];
    }
  }

  /** The list `get_next_proxy` picks from: the available proxies, or the whole pool when every proxy has failed. */
  function Candidates(proxies: seq<string>, failed: set<string>): seq<string> {
    if |Available(proxies, failed)| > 0 then Available(proxies, failed) else proxies
  }

  /** The proxy `get_next_proxy` returns for a pool, a failed set and a rotation index. */
  function PickProxy(proxies: seq<string>, failed: set<string>, index: nat): (r: Option<string>)
    ensures r.None? <==> |proxies| == 0
  {
    if |proxies| == 0 then None
    else
      var c := Candidates(proxies, failed);
      Some(c[index % |c|])
  }

  /**
   * The picked proxy is one of the pool; it has not failed unless every
   * proxy of the pool has.
   */
  lemma PickAvoidsFailed(proxies: seq<string>, failed: set<string>, index: nat)
    requires |proxies| > 0
    ensures PickProxy(proxies, failed, index).value in proxies
    ensures (exists p :: p in proxies && p !in failed) ==> PickProxy(proxies, failed, index).value !in failed
  {
    var c := Candidates(proxies, failed);
    assert c[index % |c|] in c;
    if exists p :: p in proxies && p !in failed {
      var p :| p in proxies && p !in failed;
      assert p in Available(proxies, failed);
    }
  }

  /** Rotation: while the failed set stays the same, the choice repeats after one full turn of the candidates. */
  lemma PickRoundRobin(proxies: seq<string>, failed: set<string>, index: nat)
    requires |proxies| > 0
    ensures PickProxy(proxies, failed, index + |Candidates(proxies, failed)|) == PickProxy(proxies, failed, index)
  {
    var n := |Candidates(proxies, failed)|;
    assert (index + n) % n == index % n by {
      ModuloStep(index, n);
    }
  }

  lemma ModuloStep(i: nat, n: nat)
    requires n > 0
    ensures (i + n) % n == i % n
  {
    var q := i / n;
    assert i == q * n + i % n;
    assert i + n == (q + 1) * n + i % n;
    ModuloUnique(i + n, q + 1, i % n, n);
  }

  /** Division with remainder is unique. */
  lemma ModuloUnique(x: int, q: int, r: int, n: int)
    requires n > 0 && 0 <= r < n && x == q * n + r
    ensures x % n == r
  {
    var d, m := x / n, x % n;
    assert x == d * n + m;
    assert (q - d) * n == m - r;
    if q - d >= 1 {
      MultiplyAtLeast(q - d, n);
    } else if q - d <= -1 {
      MultiplyAtLeast(d - q, n);
    }
  }

  lemma MultiplyAtLeast(k: int, n: int)
    requires k >= 1 && n > 0
    ensures k * n >= n
  {
    assert k * n == n + (k - 1) * n;
    assert (k - 1) * n >= 0;
  }

  lemma MultiplyNonPositive(k: int, n: int)
    requires k <= 0 && n > 0
    ensures k * n <= 0
  {
    assert k * n == -((-k) * n);
  }

  /** Consecutive picks with no failure in between visit distinct candidates until the turn is over. */
  lemma PickDistinct(proxies: seq<string>, failed: set<string>, i: nat, j: nat)
    requires |proxies| > 0
    requires i < j < i + |Candidates(proxies, failed)|
    ensures i % |Candidates(proxies, failed)| != j % |Candidates(proxies, failed)|
  {
    var n := |Candidates(proxies, failed)|;
    ModuloDistinct(i, j, n);
  }

  lemma ModuloDistinct(i: nat, j: nat, n: nat)
    requires n > 0 && i < j < i + n
    ensures i % n != j % n
  {
    var a, b := i / n, j / n;
    assert i == a * n + i % n;
    assert j == b * n + j % n;
    if i % n == j % n {
      assert (b - a) * n == j - i;
      if b - a >= 1 {
        MultiplyAtLeast(b - a, n);
      } else {
        MultiplyNonPositive(b - a, n);
      }
    }
  }

  /** `ProxyManager`: a fixed pool, the set of proxies marked failed, and the rotation index. */
  class ProxyManager {
    const proxies: seq<string>
    var failed: set<string>
    var index: nat

    constructor(proxies: seq<string>)
      ensures this.proxies == proxies && failed == {} && index == 0
    {
      this.proxies := proxies;
      failed := {};
      index := 0;
    }

    /**
     * `get_next_proxy`: no proxy from an empty pool. Otherwise the proxy
     * at the rotation index among the available ones, the failed set
     * cleared first when none is available, and the index moved on.
     */
    method GetNextProxy() returns (r: Option<string>)
      modifies this
      ensures r == PickProxy(proxies, old(failed), old(index))
      ensures |proxies| == 0 ==> failed == old(failed) && index == old(index)
      ensures |proxies| > 0 ==> index == old(index) + 1
      ensures |proxies| > 0 ==> failed == if |Available(proxies, old(failed))| > 0 then old(failed) else {}
    {
      if |proxies| == 0 {
        return None;
      }
      var available := Available(proxies, failed);
      if |available| == 0 {
        failed := {};
        available := proxies;
      }
      r := Some(available[index % |available|]);
      index := index + 1;
    }

    /** `mark_proxy_failed`: exactly that proxy joins the failed set. */
    method MarkProxyFailed(proxy: string)
      modifies this
      ensures failed == old(failed) + {proxy}
      ensures index == old(index)
    {
      failed := failed + {proxy};
    }
  }

  /** The length of the window `RateLimiter` counts requests over, in seconds. */
  const Window: real := 60.0

  /** `[t for t in times if now - t < 60]`: the requests still inside the window, in order. */
  function Recent(times: seq<real>, now: real): (r: seq<real>)
    ensures |r| <= |times|
    ensures forall t :: t in r <==> t in times && now - t < Window
  {
    if |times| == 0 then []
    else (if now - times[0] < Window then [times[0]] else []) + Recent(times[1..], now)
  }

  /** A window whose entries are all recent is kept whole. */
  lemma {:induction false} RecentKeepsWindow(times: seq<real>, now: real)
    requires forall i :: 0 <= i < |times| ==> now - times[i] < Window
    ensures Recent(times, now) == times
  {
    if |times| > 0 {
      RecentKeepsWindow(times[1..], now);
      assert times == [times[0]] + times[1..];
    }
  }

  /** `min(times)`. */
  function Oldest(times: seq<real>): (m: real)
    requires |times| > 0
    ensures m in times
    ensures forall t :: t in times ==> m <= t
  {
    if |times| == 1 then times[0]
    else
      var rest := Oldest(times[1..]);
      assert forall t :: t in times ==> t == times[0] || t in times[1..];
      if times[0] <= rest then times[0] else rest
  }

  /** What one call of `wait_if_needed` comes to. */
  datatype RateOutcome = Proceed | Sleep(seconds: real) | MinOfEmpty

  /**
   * The decision of `wait_if_needed` on the recent requests: sleep until
   * the oldest one leaves the window, plus the jitter, when the limit is
   * reached. A limit of zero or less with no recent request makes `min`
   * raise.
   */
  function RateDecision(recent: seq<real>, limit: int, now: real, jitter: real): (r: RateOutcome)
    ensures r.Sleep? ==> r.seconds > 0.0 && |recent| >= limit && |recent| > 0
    ensures r.Sleep? ==> r.seconds == Window - (now - Oldest(recent)) + jitter
    ensures |recent| < limit ==> r == Proceed
    ensures r == MinOfEmpty <==> |recent| == 0 && limit <= 0
    ensures |recent| >= limit && |recent| > 0 ==>
      (Window - (now - Oldest(recent)) + jitter > 0.0 <==> r == Sleep(Window - (now - Oldest(recent)) + jitter))
  {
    if |recent| >= limit then
      if |recent| == 0 then MinOfEmpty
      else
        var wait := Window - (now - Oldest(recent)) + jitter;
        if wait > 0.0 then Sleep(wait) else Proceed
    else Proceed
  }

  /**
   * After the requested sleep the oldest recent request is out of the
   * window: at wake-up it is more than sixty seconds old.
   */
  lemma SleepClearsOldest(recent: seq<real>, limit: int, now: real, jitter: real)
    requires 1.0 <= jitter <= 3.0
    requires RateDecision(recent, limit, now, jitter).Sleep?
    ensures (now + RateDecision(recent, limit, now, jitter).seconds) - Oldest(recent) >= Window
  {
  }

  /**
   * The limiter throttles: once as many requests as the limit (at least
   * one) fall inside the window, the next call sleeps, since the oldest
   * of them is less than sixty seconds old and the jitter is positive.
   */
  lemma AtLimitSleeps(times: seq<real>, limit: int, now: real, jitter: real)
    requires 1.0 <= jitter <= 3.0
    requires |Recent(times, now)| >= limit && |Recent(times, now)| > 0
    ensures RateDecision(Recent(times, now), limit, now, jitter).Sleep?
  {
    var recent := Recent(times, now);
    assert Oldest(recent) in recent;
  }

  /**
   * Within the window every recent request counts, so as long as the
   * clock does not go back, a limiter that is below its limit lets the
   * next request through at once.
   */
  lemma BelowLimitProceeds(times: seq<real>, limit: int, now: real, jitter: real)
    requires |Recent(times, now)| < limit
    ensures RateDecision(Recent(times, now), limit, now, jitter) == Proceed
  {
  }

  /** `RateLimiter`: the limit and the times of the requests made so far. */
  class RateLimiter {
    const limit: int
    var times: seq<real>

    constructor(limit: int)
      ensures this.limit == limit && times == []
    {
      this.limit := limit;
      times := [];
    }

    /**
     * `wait_if_needed` at clock reading `now` with the drawn `jitter`:
     * old requests dropped, the decision returned, and `now` recorded
     * unless `min` raised.
     */
    method WaitIfNeeded(now: real, jitter: real) returns (r: RateOutcome)
      requires 1.0 <= jitter <= 3.0
      modifies this
      ensures r == RateDecision(Recent(old(times), now), limit, now, jitter)
      ensures times == if r == MinOfEmpty then Recent(old(times), now) else Recent(old(times), now) + [now]
    {
      times := Recent(times, now);
      r := RateDecision(times, limit, now, jitter);
      if r != MinOfEmpty {
        times := times + [now];
      }
    }
  }

  /** The part of an entry of `target_sites` the delay controller reads. */
  datatype PaceSite = PaceSite(name: string, searchDelay: Option<(real, real)>)

  /** `search_delay` when the site's configuration does not give one. */
  const DefaultDelay: (real, real) := (2.0, 5.0)

  /** `_get_site_config`: the index of the first site whose name matches, ignoring case. */
  function SiteConfigIndex(sites: seq<PaceSite>, siteName: string): (r: Option<nat>)
    ensures r.Some? ==> r.value < |sites| && Lower(sites[r.value].name) == Lower(siteName)
    ensures r.Some? ==> forall j :: 0 <= j < r.value ==> Lower(sites[j].name) != Lower(siteName)
    ensures r.None? ==> forall j :: 0 <= j < |sites| ==> Lower(sites[j].name) != Lower(siteName)
  {
    if |sites| == 0 then None
    else if Lower(sites[0].name) == Lower(siteName) then Some(0)
    else match SiteConfigIndex(sites[1..], siteName)
      case None => None
      case Some(k) => Some(k + 1)
  }

  /** The delay range the controller uses for a site. */
  function DelayRange(sites: seq<PaceSite>, siteName: string): (real, real) {
    match SiteConfigIndex(sites, siteName)
    case Some(k) => sites[k].searchDelay.GetOr(DefaultDelay)
    case None => DefaultDelay
  }

  /**
   * The sleep `wait_if_needed` requests: when less than the minimum has
   * elapsed since the last visit (zero when there was none), a uniform
   * draw between what is missing to the minimum and to the maximum; `u` in
   * [0, 1] is the draw's position. Nothing when that is not positive.
   */
  function DelaySleep(minDelay: real, maxDelay: real, last: real, now: real, u: real): (s: real)
    ensures s >= 0.0
    ensures now - last >= minDelay ==> s == 0.0
  {
    var elapsed := now - last;
    if elapsed < minDelay then
      var lo, hi := minDelay - elapsed, maxDelay - elapsed;
      var wait := lo + (hi - lo) * u;
      if wait > 0.0 then wait else 0.0
    else 0.0
  }

  /**
   * With a well-ordered range the controller spaces visits of a site by
   * at least the minimum delay, and by no more than the maximum.
   */
  lemma DelayRespectsRange(minDelay: real, maxDelay: real, last: real, now: real, u: real)
    requires 0.0 <= u <= 1.0 && minDelay <= maxDelay
    requires now - last < minDelay
    ensures minDelay <= (now + DelaySleep(minDelay, maxDelay, last, now, u)) - last <= maxDelay
  {
    var elapsed := now - last;
    var lo, hi := minDelay - elapsed, maxDelay - elapsed;
    var p := (hi - lo) * u;
    ProductBounds(hi - lo, u);
    assert p <= maxDelay - minDelay;
    assert DelaySleep(minDelay, maxDelay, last, now, u) == lo + p;
  }

  lemma ProductBounds(a: real, u: real)
    requires a >= 0.0 && 0.0 <= u <= 1.0
    ensures 0.0 <= a * u <= a
  {
  }

  /** `DelayController`: the site configurations and the time of the last visit of each site. */
  class DelayController {
    const sites: seq<PaceSite>
    var lastRequest: map<string, real>

    constructor(sites: seq<PaceSite>)
      ensures this.sites == sites && lastRequest == map[]
    {
      this.sites := sites;
      lastRequest := map[];
    }

    /** The recorded last visit of a site, zero when there was none. */
    function LastVisit(siteName: string): real
      reads this
    {
      if siteName in lastRequest then lastRequest[siteName] else 0.0
    }

    /**
     * `wait_if_needed` for a site at clock reading `now`, with the draw
     * `u` and the clock reading `after` once the sleep is over: the sleep
     * is returned and the visit recorded at `after`.
     */
    method WaitIfNeeded(siteName: string, now: real, u: real, after: real) returns (sleep: real)
      requires 0.0 <= u <= 1.0
      modifies this
      ensures sleep == DelaySleep(DelayRange(sites, siteName).0, DelayRange(sites, siteName).1, old(LastVisit(siteName)), now, u)
      ensures lastRequest == old(lastRequest)[siteName := after]
    {
      var range := DelayRange(sites, siteName);
      var last := if siteName in lastRequest then lastRequest[siteName] else 0.0;
      sleep := DelaySleep(range.0, range.1, last, now, u);
      lastRequest := lastRequest[siteName := after];
    }
  }
}
