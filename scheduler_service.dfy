/**
 * The price-check job registry of `scheduler_service.py`: one interval
 * job per search request, named after the request id, over an abstract
 * store that says, for each stored request, whether it is tracked.
 */
module SchedulerService {
  import opened Basics
  import opened Text

  const JobIdPrefix: string := "crawl_request_"

  /** `crawl_interval_hours` when the settings do not give one. */
  const DefaultIntervalHours: real := 2.0

  /** `f'crawl_request_{search_request_id}'`. */
  function JobId(requestId: int): string {
    JobIdPrefix + IntToString(requestId)
  }

  /** A job id is the prefix followed by at least one character. */
  lemma JobIdShape(requestId: int)
    ensures StartsWith(JobId(requestId), JobIdPrefix)
    ensures |JobId(requestId)| > |JobIdPrefix|
  {
    assert JobId(requestId)[..|JobIdPrefix|] == JobIdPrefix;
  }

  /** The request id can be read back from its job id. */
  lemma JobIdRoundTrip(requestId: int)
    ensures ParseInt(JobId(requestId)[|JobIdPrefix|..]) == requestId
  {
    assert JobId(requestId)[|JobIdPrefix|..] == IntToString(requestId);
    IntToStringRoundTrip(requestId);
  }

  /** Distinct requests get distinct jobs. */
  lemma JobIdInjective(a: int, b: int)
    requires JobId(a) == JobId(b)
    ensures a == b
  {
    JobIdRoundTrip(a);
    JobIdRoundTrip(b);
  }

  /** A scheduled job: the request it crawls and its interval in hours. */
  datatype Job = Job(requestId: int, intervalHours: real)

  /** The request is stored and tracked. */
  predicate Tracked(store: map<int, bool>, id: int) {
    id in store && store[id]
  }

  /** The job table after each of `ids`, in turn, has its job set to `hours`. */
  function Rescheduled(jobs: map<string, Job>, ids: seq<int>, hours: real): map<string, Job> {
    if |ids| == 0 then jobs
    else
      var id := ids[|ids| - 1];
      Rescheduled(jobs, ids[..|ids| - 1], hours)[JobId(id) := Job(id, hours)]
  }

  /** One more request reschedules its job on top of the earlier ones. */
  lemma RescheduledSnoc(jobs: map<string, Job>, ids: seq<int>, i: nat, hours: real)
    requires i < |ids|
    ensures Rescheduled(jobs, ids[..i + 1], hours) == Rescheduled(jobs, ids[..i], hours)[JobId(ids[i]) := Job(ids[i], hours)]
  {
    assert ids[..i + 1][..i] == ids[..i];
  }

  /**
   * After rescheduling, each listed request has its job at `hours`, every
   * earlier job is still there, and a job that changed or appeared belongs
   * to a listed request.
   */
  lemma {:induction false} RescheduledJobs(jobs: map<string, Job>, ids: seq<int>, hours: real)
    ensures forall id :: id in ids ==>
      JobId(id) in Rescheduled(jobs, ids, hours) && Rescheduled(jobs, ids, hours)[JobId(id)] == Job(id, hours)
    ensures forall k :: k in jobs ==> k in Rescheduled(jobs, ids, hours)
    ensures forall k :: k in Rescheduled(jobs, ids, hours) ==>
      (k in jobs && Rescheduled(jobs, ids, hours)[k] == jobs[k]) || Rescheduled(jobs, ids, hours)[k].requestId in ids
  {
    if |ids| > 0 {
      var init := ids[..|ids| - 1];
      var last := ids[|ids| - 1];
      assert ids == init + [last];
      RescheduledJobs(jobs, init, hours);
      var before := Rescheduled(jobs, init, hours);
      var after := Rescheduled(jobs, ids, hours);
      assert after == before[JobId(last) := Job(last, hours)];
      forall id | id in ids
        ensures JobId(id) in after && after[JobId(id)] == Job(id, hours)
      {
        if id != last {
          assert id in init;
          if JobId(id) == JobId(last) {
            JobIdInjective(id, last);
          }
        }
      }
      forall k | k in after
        ensures (k in jobs && after[k] == jobs[k]) || after[k].requestId in ids
      {
        if k != JobId(last) {
          assert k in before && after[k] == before[k];
          if !(k in jobs && before[k] == jobs[k]) {
            assert before[k].requestId in init;
          }
        }
      }
    }
  }

  /** Rescheduling exactly the tracked requests, stated in terms of the store. */
  lemma RescheduledTracked(jobs: map<string, Job>, active: seq<int>, store: map<int, bool>, hours: real)
    requires forall id :: id in active <==> Tracked(store, id)
    ensures forall id :: Tracked(store, id) ==>
      JobId(id) in Rescheduled(jobs, active, hours) && Rescheduled(jobs, active, hours)[JobId(id)] == Job(id, hours)
    ensures forall k :: k in jobs ==> k in Rescheduled(jobs, active, hours)
    ensures forall k :: k in Rescheduled(jobs, active, hours) ==>
      (k in jobs && Rescheduled(jobs, active, hours)[k] == jobs[k]) || Tracked(store, Rescheduled(jobs, active, hours)[k].requestId)
  {
    RescheduledJobs(jobs, active, hours);
  }

  /**
   * The scheduler's job table, the request store it consults (request id
   * to `is_tracking`) and the requests handed to the scraper, in order.
   */
  class Registry {
    var jobs: map<string, Job>
    var store: map<int, bool>
    var scraped: seq<int>

    /** Every job sits under the id of the request it crawls. */
    ghost predicate Valid()
      reads this
    {
      forall k :: k in jobs ==> k == JobId(jobs[k].requestId)
    }

    constructor(store: map<int, bool>)
      ensures Valid()
      ensures jobs == map[] && this.store == store && scraped == []
    {
      jobs := map[];
      this.store := store;
      scraped := [];
    }

    /** `remove_scheduled_job`: the request's job is gone; removing an absent job is a no-op. */
    method RemoveScheduledJob(requestId: int)
      requires Valid()
      modifies this
      ensures Valid()
      ensures jobs == old(jobs) - {JobId(requestId)}
      ensures store == old(store) && scraped == old(scraped)
    {
      var key := JobId(requestId);
      if key in jobs {
        jobs := jobs - {key};
      }
    }

    /**
     * `job_wrapper`: a request missing from the store removes its own job
     * and is not scraped; an untracked one is skipped and keeps its job; a
     * tracked one is scraped once (a failing scrape is swallowed).
     */
    method JobWrapper(requestId: int)
      requires Valid()
      modifies this
      ensures Valid()
      ensures requestId !in old(store) ==> jobs == old(jobs) - {JobId(requestId)} && scraped == old(scraped)
      ensures requestId in old(store) && !old(store)[requestId] ==> jobs == old(jobs) && scraped == old(scraped)
      ensures Tracked(old(store), requestId) ==> jobs == old(jobs) && scraped == old(scraped) + [requestId]
      ensures store == old(store)
    {
      if Tracked(store, requestId) {
        scraped := scraped + [requestId];
      } else if requestId !in store {
        RemoveScheduledJob(requestId);
      }
    }

    /**
     * `schedule_price_check`: the request's job is rescheduled to the
     * configured interval if it exists and added otherwise, so afterwards
     * there is exactly one job for it, with that interval; other jobs are
     * untouched. With `runNow` the wrapper then runs once, which removes
     * the job again when the request is missing.
     */
    method SchedulePriceCheck(requestId: int, configuredHours: Option<real>, runNow: bool)
      requires Valid()
      modifies this
      ensures Valid()
      ensures !runNow || requestId in old(store) ==>
        jobs == old(jobs)[JobId(requestId) := Job(requestId, configuredHours.GetOr(DefaultIntervalHours))]
      ensures runNow && requestId !in old(store) ==> jobs == old(jobs) - {JobId(requestId)}
      ensures scraped == old(scraped) + (if runNow && Tracked(old(store), requestId) then [requestId] else [])
      ensures store == old(store)
    {
      var hours := configuredHours.GetOr(DefaultIntervalHours);
      var key := JobId(requestId);
      if key in jobs {
        JobIdInjective(jobs[key].requestId, requestId);
        jobs := jobs[key := jobs[key].(intervalHours := hours)];
      } else {
        jobs := jobs[key := Job(requestId, hours)];
      }
      if runNow {
        JobWrapper(requestId);
      }
    }

    /**
     * `reschedule_all_active_jobs`: one schedule call per tracked request,
     * in the order the query lists them (`active`, the ids of exactly the
     * tracked requests). Afterwards every tracked request has its job at
     * the configured interval, every other job is as it was, and nothing
     * is scraped.
     */
    method RescheduleAllActiveJobs(active: seq<int>, configuredHours: Option<real>)
      requires Valid()
      requires forall id :: id in active <==> Tracked(store, id)
      modifies this
      ensures Valid()
      ensures forall id :: Tracked(store, id) ==>
        JobId(id) in jobs && jobs[JobId(id)] == Job(id, configuredHours.GetOr(DefaultIntervalHours))
      ensures forall k :: k in old(jobs) ==> k in jobs
      ensures forall k :: k in jobs ==> (k in old(jobs) && jobs[k] == old(jobs)[k]) || Tracked(store, jobs[k].requestId)
      ensures store == old(store) && scraped == old(scraped)
    {
      var hours := configuredHours.GetOr(DefaultIntervalHours);
      var i := 0;
      while i < |active|
        invariant 0 <= i <= |active|
        invariant Valid()
        invariant store == old(store) && scraped == old(scraped)
        invariant jobs == Rescheduled(old(jobs), active[..i], hours)
      {
        SchedulePriceCheck(active[i], configuredHours, false);
        RescheduledSnoc(old(jobs), active, i, hours);
        i := i + 1;
      }
      assert active[..|active|] == active;
      RescheduledTracked(old(jobs), active, store, hours);
    }
  }
}
