/**
 * The job manager of the API: a registry of scrape jobs and a registry of
 * webhooks, the per-job status updates, the job listing, webhook
 * registration and selection, and the scrape-job pipeline.
 *
 * The clock, the random id suffixes, the configuration loader, the scraper
 * and the storage backend are inputs. HTTP POSTs are recorded in
 * `deliveries` instead of being sent; calls of the storage backend's `save`
 * are recorded in `saveCalls`.
 */
module JobManagement {
  import opened Common
  import opened Records
  import opened Deduplication

  // ---------------------------------------------------------------------
  // Request and job models

  datatype JobStatus = Pending | Running | Completed | Failed

  /** The string value of each status. */
  function StatusValue(s: JobStatus): string {
    match s
    case Pending => "pending"
    case Running => "running"
    case Completed => "completed"
    case Failed => "failed"
  }

  /** A reading of `datetime.now()`. */
  type Time = int

  /** The body of a scrape request; every field is optional. */
  datatype ScrapeRequest = ScrapeRequest(
    configPath: Option<string>,
    headless: Option<bool>,
    maxPages: Option<int>,
    webhookUrl: Option<string>)

  /** A request that sends no field: `headless` defaults to `True`, the rest to `None`. */
  const DefaultRequest: ScrapeRequest := ScrapeRequest(None, Some(true), None, None)

  /** One scrape run, as stored in the registry. */
  datatype ScrapeJob = ScrapeJob(
    jobId: string,
    request: ScrapeRequest,
    status: JobStatus,
    createdAt: Time,
    startedAt: Option<Time>,
    completedAt: Option<Time>,
    jobsFound: Option<int>,
    jobsNew: Option<int>,
    error: Option<string>,
    results: seq<Job>)

  /** `ScrapeJob(job_id, request)` created at time `now`. */
  function NewScrapeJob(id: string, request: ScrapeRequest, now: Time): ScrapeJob {
    ScrapeJob(id, request, Pending, now, None, None, None, None, None, [])
  }

  /** The keyword arguments of `update_job_status`; `Some` means the argument was passed. */
  datatype Kwargs = Kwargs(
    jobsFound: Option<int>,
    jobsNew: Option<int>,
    error: Option<string>,
    results: Option<seq<Job>>)

  const NoKwargs: Kwargs := Kwargs(None, None, None, None)

  /** `setattr(job, key, value)` for every passed keyword argument. */
  function ApplyKwargs(job: ScrapeJob, kw: Kwargs): ScrapeJob {
    job.(jobsFound := if kw.jobsFound.Some? then kw.jobsFound else job.jobsFound,
         jobsNew := if kw.jobsNew.Some? then kw.jobsNew else job.jobsNew,
         error := if kw.error.Some? then kw.error else job.error,
         results := if kw.results.Some? then kw.results.value else job.results)
  }

  /**
   * A job after `update_job_status(job_id, status, **kw)` at time `now`: the
   * status is overwritten whatever it was, `started_at` is set by a RUNNING
   * update only while it is unset, `completed_at` by every COMPLETED or
   * FAILED update, then the keyword arguments are assigned.
   */
  function WithStatus(job: ScrapeJob, status: JobStatus, now: Time, kw: Kwargs): (r: ScrapeJob)
    ensures r.jobId == job.jobId && r.request == job.request && r.createdAt == job.createdAt
    ensures r.status == status
    ensures job.startedAt.Some? || status != Running ==> r.startedAt == job.startedAt
    ensures status == Running && job.startedAt.None? ==> r.startedAt == Some(now)
    ensures status == Completed || status == Failed ==> r.completedAt == Some(now)
    ensures status != Completed && status != Failed ==> r.completedAt == job.completedAt
    ensures r.jobsFound == if kw.jobsFound.Some? then kw.jobsFound else job.jobsFound
    ensures r.jobsNew == if kw.jobsNew.Some? then kw.jobsNew else job.jobsNew
    ensures r.error == if kw.error.Some? then kw.error else job.error
    ensures r.results == if kw.results.Some? then kw.results.value else job.results
  {
    var stamped :=
      if status == Running && job.startedAt.None? then job.(status := status, startedAt := Some(now))
      else if status == Completed || status == Failed then job.(status := status, completedAt := Some(now))
      else job.(status := status);
    ApplyKwargs(stamped, kw)
  }

  /** One call of `update_job_status` on a given job. */
  datatype StatusUpdate = StatusUpdate(status: JobStatus, now: Time, kw: Kwargs)

  /** A job after a series of status updates, in order. */
  function ApplyAll(job: ScrapeJob, updates: seq<StatusUpdate>): ScrapeJob
    decreases |updates|
  {
    if updates == [] then job
    else ApplyAll(WithStatus(job, updates[0].status, updates[0].now, updates[0].kw), updates[1..])
  }

  /** The time of the first RUNNING update, if any. */
  function FirstRunning(updates: seq<StatusUpdate>): Option<Time>
    decreases |updates|
  {
    if updates == [] then None
    else if updates[0].status == Running then Some(updates[0].now)
    else FirstRunning(updates[1..])
  }

  /** The time of the last COMPLETED or FAILED update, if any. */
  function LastTerminal(updates: seq<StatusUpdate>): Option<Time>
    decreases |updates|
  {
    if updates == [] then None
    else
      var last := updates[|updates| - 1];
      if last.status == Completed || last.status == Failed then Some(last.now)
      else LastTerminal(updates[..|updates| - 1])
  }

  /** A registered webhook. */
  datatype Webhook = Webhook(url: string, events: seq<string>, description: Option<string>, createdAt: Time)

  /** The `data` sent with a notification. */
  datatype Payload =
    | Summary(jobsFound: int, jobsNew: int, jobs: seq<Job>)
    | ErrorReport(error: string)

  /** The JSON body of a POST: an event envelope for registered webhooks, bare data for a request's own webhook. */
  datatype Body =
    | Notification(event: string, jobId: string, data: Payload)
    | JobWebhookBody(data: Payload)

  /** One attempted POST. */
  datatype Delivery = Delivery(url: string, body: Body)

  const CompletedEvent: string := "scrape.completed"
  const FailedEvent: string := "scrape.failed"

  /** The number of new jobs included in a completion payload. */
  const PayloadJobLimit: nat := 10

  function Min(a: int, b: int): int { if a <= b then a else b }
  function Max(a: int, b: int): int { if a >= b then a else b }

  /** `f"scrape_{stamp}_{hex[:8]}"`, where `stamp` is the formatted clock reading. */
  function JobIdFor(stamp: string, hex: string): string {
    "scrape_" + stamp + "_" + hex[..Min(8, |hex|)]
  }

  /** `f"webhook_{hex[:8]}"`. */
  function WebhookIdFor(hex: string): string {
    "webhook_" + hex[..Min(8, |hex|)]
  }

  // ---------------------------------------------------------------------
  // Insertion-ordered dictionaries

  predicate Distinct(order: seq<string>) {
    forall i, j :: 0 <= i < j < |order| ==> order[i] != order[j]
  }

  /** `order` lists the keys of `m` once each: the iteration order of a Python dict. */
  ghost predicate Orders<V>(order: seq<string>, m: map<string, V>) {
    Distinct(order) && forall k :: k in order <==> k in m
  }

  /** The order after `del d[key]`. */
  function Without(order: seq<string>, key: string): (r: seq<string>)
    requires Distinct(order)
    ensures Distinct(r)
    ensures forall k :: k in r <==> k in order && k != key
    decreases |order|
  {
    if order == [] then []
    else
      var rest := Without(order[1..], key);
      if order[0] == key then rest
      else
        assert order[0] !in order[1..];
        [order[0]] + rest
  }

  /** `del d[key]` keeps the other keys in their insertion order. */
  lemma {:induction false} WithoutKeepsOrder(order: seq<string>, key: string)
    requires Distinct(order)
    ensures IsSubsequence(Without(order, key), order)
    decreases |order|
  {
    if order != [] {
      WithoutKeepsOrder(order[1..], key);
      var rest := Without(order[1..], key);
      if order[0] != key {
        assert ([order[0]] + rest)[1..] == rest;
      }
    }
  }

  /** `list(d.values())`. */
  function ValuesInOrder<V>(order: seq<string>, m: map<string, V>): (r: seq<V>)
    requires forall k :: k in order ==> k in m
    ensures |r| == |order|
    ensures forall i :: 0 <= i < |order| ==> r[i] == m[order[i]]
    decreases |order|
  {
    if order == [] then [] else [m[order[0]]] + ValuesInOrder(order[1..], m)
  }

  // ---------------------------------------------------------------------
  // Listing

  /** `[j for j in jobs if j.status == status]`. */
  function FilterStatus(jobs: seq<ScrapeJob>, status: JobStatus): seq<ScrapeJob>
    decreases |jobs|
  {
    if jobs == [] then []
    else (if jobs[0].status == status then [jobs[0]] else []) + FilterStatus(jobs[1..], status)
  }

  /** Newest first: `created_at` never increases along the list. */
  predicate SortedNewestFirst(jobs: seq<ScrapeJob>) {
    forall i, j :: 0 <= i < j < |jobs| ==> jobs[i].createdAt >= jobs[j].createdAt
  }

  /** Places `x` before the first job that is not newer than it. */
  function InsertNewest(x: ScrapeJob, sorted: seq<ScrapeJob>): seq<ScrapeJob>
    decreases |sorted|
  {
    if sorted == [] || sorted[0].createdAt <= x.createdAt then [x] + sorted
    else [sorted[0]] + InsertNewest(x, sorted[1..])
  }

  /** `jobs.sort(key=lambda x: x.created_at, reverse=True)`: a stable sort, newest first. */
  function SortNewestFirst(jobs: seq<ScrapeJob>): seq<ScrapeJob>
    decreases |jobs|
  {
    if jobs == [] then [] else InsertNewest(jobs[0], SortNewestFirst(jobs[1..]))
  }

  /** The jobs created at time `t`, in order. */
  function CreatedAt(jobs: seq<ScrapeJob>, t: Time): seq<ScrapeJob>
    decreases |jobs|
  {
    if jobs == [] then []
    else (if jobs[0].createdAt == t then [jobs[0]] else []) + CreatedAt(jobs[1..], t)
  }

  /** The length of the Python slice `s[:limit]` of a list of length `n`. */
  function SliceLength(n: nat, limit: int): nat {
    if limit >= 0 then Min(limit, n) else Max(0, n + limit)
  }

  /** `s[:limit]`, a negative `limit` counting from the end. */
  function SliceTo<T>(s: seq<T>, limit: int): (r: seq<T>)
    ensures |r| <= |s| && r == s[..|r|]
  {
    s[..SliceLength(|s|, limit)]
  }

  /**
   * Python's rules for `s[:limit]`: a limit within the list takes that many
   * items, a larger one takes them all, a negative one within the list
   * counts from the end, and one below `-len(s)` takes none.
   */
  lemma SliceRules<T>(s: seq<T>, limit: int)
    ensures 0 <= limit <= |s| ==> SliceTo(s, limit) == s[..limit]
    ensures limit >= |s| ==> SliceTo(s, limit) == s
    ensures -|s| <= limit < 0 ==> SliceTo(s, limit) == SliceTo(s, |s| + limit)
    ensures limit < -|s| ==> SliceTo(s, limit) == []
  {
  }

  // ---------------------------------------------------------------------
  // The scrape pipeline, as a function of its collaborators

  /**
   * The parts of the loaded configuration a run reads: whether it has a
   * `scraper` section, that section's `headless` and `max_pages`, and the
   * dedup key field.
   */
  datatype Settings = Settings(hasScraperSection: bool, headless: bool, maxPages: int, keyField: Option<string>)

  /**
   * What a run depends on beyond the job itself: loading the configuration,
   * the logger setup and the scraper as a function of the effective
   * settings, and the storage backend (construction, `exists`, `save`).
   * `Raised`/`Some(message)` stand for an exception with that message.
   */
  datatype Collaborators = Collaborators(
    loadConfig: Option<string> -> Outcome<Settings>,
    scrape: Settings -> Outcome<seq<Job>>,
    storageError: Option<string>,
    inStore: Job -> bool,
    saveError: Option<string>)

  /** `Config(config_path) if config_path else Config()`. */
  function ConfigSource(request: ScrapeRequest): Option<string> {
    if Truthy(request.configPath) then request.configPath else None
  }

  /** `str(e)` of the `KeyError` raised by indexing a configuration without a `scraper` section. */
  const ScraperKeyErrorMessage: string := "'scraper'"

  /**
   * The settings after the request's overrides: each applies unless it is
   * `None`, and applying one to a configuration without a `scraper` section
   * raises `KeyError`.
   */
  function Effective(config: Settings, request: ScrapeRequest): Outcome<Settings> {
    if (request.headless.Some? || request.maxPages.Some?) && !config.hasScraperSection then
      Raised(ScraperKeyErrorMessage)
    else
      Ok(config.(headless := request.headless.GetOr(config.headless),
                 maxPages := request.maxPages.GetOr(config.maxPages)))
  }

  /** `config.get("deduplication.key_field", "job_url")`. */
  function KeyFieldName(config: Settings): string {
    config.keyField.GetOr(DefaultKeyFieldName)
  }

  /** How a run ends. */
  datatype RunVerdict =
    | Failure(message: string)
    | SaveFailed(message: string, batch: seq<Job>)
    | EmptyScrape
    | Scraped(jobsFound: nat, newJobs: seq<Job>)

  /** The outcome of the body of `run_scrape_job` for a request. */
  function Verdict(request: ScrapeRequest, env: Collaborators): RunVerdict {
    match env.loadConfig(ConfigSource(request))
    case Raised(m) => Failure(m)
    case Ok(config) =>
      match Effective(config, request)
      case Raised(m) => Failure(m)
      case Ok(settings) =>
        match env.scrape(settings)
        case Raised(m) => Failure(m)
        case Ok(raw) => if raw == [] then EmptyScrape else StoreVerdict(raw, settings, env)
  }

  /** The outcome once the scraper has returned a non-empty batch `raw`. */
  function StoreVerdict(raw: seq<Job>, settings: Settings, env: Collaborators): RunVerdict {
    if env.storageError.Some? then Failure(env.storageError.value)
    else
      match FieldNamed(KeyFieldName(settings))
      case None => Failure(AttributeErrorMessage(KeyFieldName(settings)))
      case Some(f) =>
        var novel := Unseen(Dedup(raw, f), env.inStore);
        if novel != [] && env.saveError.Some? then SaveFailed(env.saveError.value, novel)
        else Scraped(|raw|, novel)
  }

  /** The terminal update a run makes to its RUNNING job at time `now`. */
  function Concluded(running: ScrapeJob, v: RunVerdict, now: Time): ScrapeJob {
    match v
    case Failure(m) => WithStatus(running, Failed, now, NoKwargs.(error := Some(m)))
    case SaveFailed(m, _) => WithStatus(running, Failed, now, NoKwargs.(error := Some(m)))
    case EmptyScrape => WithStatus(running, Completed, now, Kwargs(Some(0), Some(0), None, Some([])))
    case Scraped(n, novel) => WithStatus(running, Completed, now, Kwargs(Some(n), Some(|novel|), None, Some(novel)))
  }

  /** The job as a run leaves it: RUNNING at `t1`, then its terminal update at `t2`. */
  function FinalJob(job: ScrapeJob, v: RunVerdict, t1: Time, t2: Time): ScrapeJob {
    Concluded(WithStatus(job, Running, t1, NoKwargs), v, t2)
  }

  /** The URLs of the registrations, in order, whose events contain `event`. */
  function TargetsFrom(order: seq<string>, hooks: map<string, Webhook>, event: string): seq<string>
    decreases |order|
  {
    if order == [] then []
    else (if order[0] in hooks && event in hooks[order[0]].events then [hooks[order[0]].url] else [])
         + TargetsFrom(order[1..], hooks, event)
  }

  /** One notification per target URL, in order. */
  function Notify(urls: seq<string>, event: string, jobId: string, data: Payload): (r: seq<Delivery>)
    ensures |r| == |urls|
    ensures forall i :: 0 <= i < |urls| ==> r[i] == Delivery(urls[i], Notification(event, jobId, data))
    decreases |urls|
  {
    if urls == [] then []
    else Notify(urls[..|urls| - 1], event, jobId, data) + [Delivery(urls[|urls| - 1], Notification(event, jobId, data))]
  }

  /** The completion payload: the counts and at most the first ten new jobs. */
  function CompletionData(found: nat, novel: seq<Job>): Payload {
    Summary(found, |novel|, novel[..Min(PayloadJobLimit, |novel|)])
  }

  /** The POSTs a run attempts once it has reached its terminal state. */
  function Posts(v: RunVerdict, request: ScrapeRequest, id: string, order: seq<string>, hooks: map<string, Webhook>): seq<Delivery>
  {
    match v
    case Failure(m) => Notify(TargetsFrom(order, hooks, FailedEvent), FailedEvent, id, ErrorReport(m))
    case SaveFailed(m, _) => Notify(TargetsFrom(order, hooks, FailedEvent), FailedEvent, id, ErrorReport(m))
    case EmptyScrape => []
    case Scraped(n, novel) =>
      var data := CompletionData(n, novel);
      OwnPost(request, data) + Notify(TargetsFrom(order, hooks, CompletedEvent), CompletedEvent, id, data)
  }

  /** Past a prefix `a`, the elements of `a + b` are those of `b`. */
  lemma AfterPrefix<T>(a: seq<T>, b: seq<T>)
    ensures forall i :: 0 <= i < |b| ==> (a + b)[|a| + i] == b[i]
  {
  }

  /** A second update of the same key replaces the first. */
  lemma Overwrite<K, V>(m: map<K, V>, k: K, first: V, second: V)
    ensures m[k := first][k := second] == m[k := second]
  {
  }

  /** Appending two batches of POSTs one after the other is appending them together. */
  lemma Regroup<T>(a: seq<T>, b: seq<T>, c: seq<T>)
    ensures (a + b) + c == a + (b + c)
  {
  }

  /** The POST to the request's own webhook, if it names one: the bare payload. */
  function OwnPost(request: ScrapeRequest, data: Payload): seq<Delivery> {
    if request.webhookUrl.Some? then [Delivery(request.webhookUrl.value, JobWebhookBody(data))] else []
  }

  /** The batches a run passes to the storage backend's `save`. */
  function SaveCalls(v: RunVerdict): seq<seq<Job>> {
    match v
    case SaveFailed(_, batch) => [batch]
    case Scraped(_, novel) => if novel != [] then [novel] else []
    case _ => []
  }

  // ---------------------------------------------------------------------
  // The manager

  class JobManager {
    var jobs: map<string, ScrapeJob>
    var jobOrder: seq<string>
    var webhooks: map<string, Webhook>
    var webhookOrder: seq<string>
    var deliveries: seq<Delivery>
    var saveCalls: seq<seq<Job>>

    ghost predicate Valid()
      reads this`jobs, this`jobOrder, this`webhooks, this`webhookOrder
    {
      && Orders(jobOrder, jobs)
      && Orders(webhookOrder, webhooks)
      && forall id :: id in jobs ==> jobs[id].jobId == id
    }

    constructor ()
      ensures Valid()
      ensures jobs == map[] && webhooks == map[] && deliveries == [] && saveCalls == []
    {
      jobs := map[];
      jobOrder := [];
      webhooks := map[];
      webhookOrder := [];
      deliveries := [];
      saveCalls := [];
    }

    /** The jobs that `list_jobs(status)` considers, in registry order, before sorting. */
    function Matching(status: Option<JobStatus>): (r: seq<ScrapeJob>)
      requires Valid()
      reads this
    {
      var all := ValuesInOrder(jobOrder, jobs);
      if status.Some? then FilterStatus(all, status.value) else all
    }

    /** `create_job`: inserts a PENDING job under the generated id; other entries are unchanged. */
    method CreateJob(request: ScrapeRequest, stamp: string, hex: string, now: Time) returns (id: string)
      requires Valid()
      modifies this`jobs, this`jobOrder
      ensures Valid()
      ensures id == JobIdFor(stamp, hex)
      ensures jobs == old(jobs)[id := NewScrapeJob(id, request, now)]
      ensures jobOrder == if id in old(jobs) then old(jobOrder) else old(jobOrder) + [id]
    {
      id := JobIdFor(stamp, hex);
      if id !in jobs {
        jobOrder := jobOrder + [id];
      }
      jobs := jobs[id := NewScrapeJob(id, request, now)];
    }

    /** `get_job`. */
    method GetJob(id: string) returns (r: Option<ScrapeJob>)
      ensures id in jobs ==> r == Some(jobs[id])
      ensures id !in jobs ==> r == None
    {
      r := if id in jobs then Some(jobs[id]) else None;
    }

    /**
     * `list_jobs(status, limit)`: registered jobs with the given status (all
     * jobs without one), newest first, cut by the Python slice `[:limit]`.
     */
    method ListJobs(status: Option<JobStatus>, limit: int) returns (r: seq<ScrapeJob>)
      requires Valid()
      ensures forall j :: j in r ==> j in jobs.Values
      ensures status.Some? ==> forall j :: j in r ==> j.status == status.value
      ensures SortedNewestFirst(r)
      ensures |r| == SliceLength(|Matching(status)|, limit)
      ensures limit >= 0 ==> |r| <= limit
      ensures multiset(r) <= multiset(Matching(status))
      ensures limit >= |Matching(status)| ==> multiset(r) == multiset(Matching(status))
      ensures forall j, k :: j in Matching(status) && j !in r && k in r ==> j.createdAt <= k.createdAt
      ensures r == Listing(Matching(status), limit)
    {
      var all := ValuesInOrder(jobOrder, jobs);
      var selected := if status.Some? then FilterStatus(all, status.value) else all;
      r := SliceTo(SortNewestFirst(selected), limit);
      ListingShape(selected, limit);
      ListingDrawn(selected, limit);
      ListingNewest(selected, limit);
      MatchingMembers(this, status);
    }

    /** `update_job_status`: an unknown id changes nothing; a known one is updated as `WithStatus` says. */
    method UpdateJobStatus(id: string, status: JobStatus, kw: Kwargs, now: Time)
      requires Valid()
      modifies this`jobs
      ensures Valid()
      ensures id !in old(jobs) ==> jobs == old(jobs)
      ensures id in old(jobs) ==> jobs == old(jobs)[id := WithStatus(old(jobs)[id], status, now, kw)]
    {
      if id in jobs {
        jobs := jobs[id := WithStatus(jobs[id], status, now, kw)];
      }
    }

    /** `register_webhook`: stores the registration under the generated id. */
    method RegisterWebhook(url: string, events: seq<string>, description: Option<string>, hex: string, now: Time)
      returns (id: string)
      requires Valid()
      modifies this`webhooks, this`webhookOrder
      ensures Valid()
      ensures id == WebhookIdFor(hex)
      ensures webhooks == old(webhooks)[id := Webhook(url, events, description, now)]
      ensures webhookOrder == if id in old(webhooks) then old(webhookOrder) else old(webhookOrder) + [id]
    {
      id := WebhookIdFor(hex);
      if id !in webhooks {
        webhookOrder := webhookOrder + [id];
      }
      webhooks := webhooks[id := Webhook(url, events, description, now)];
    }

    /** `get_webhooks`: a copy of the registry. */
    method GetWebhooks() returns (r: map<string, Webhook>)
      ensures r == webhooks
    {
      r := webhooks;
    }

    /** `delete_webhook`: true and the entry removed iff the id is registered; otherwise nothing changes. */
    method DeleteWebhook(id: string) returns (deleted: bool)
      requires Valid()
      modifies this`webhooks, this`webhookOrder
      ensures Valid()
      ensures deleted <==> id in old(webhooks)
      ensures webhooks == old(webhooks) - {id}
      ensures !deleted ==> webhooks == old(webhooks) && webhookOrder == old(webhookOrder)
      ensures deleted ==> webhookOrder == Without(old(webhookOrder), id)
    {
      if id in webhooks {
        webhooks := webhooks - {id};
        webhookOrder := Without(webhookOrder, id);
        deleted := true;
      } else {
        deleted := false;
      }
    }

    /** The selection loop of `trigger_webhooks`: the URLs of the registrations subscribed to `event`. */
    method CollectWebhookTargets(event: string) returns (urls: seq<string>)
      requires forall k :: k in webhookOrder ==> k in webhooks
      ensures urls == TargetsFrom(webhookOrder, webhooks, event)
    {
      urls := [];
      for i := 0 to |webhookOrder|
        invariant urls + TargetsFrom(webhookOrder[i..], webhooks, event) == TargetsFrom(webhookOrder, webhooks, event)
      {
        assert webhookOrder[i..][0] == webhookOrder[i] && webhookOrder[i..][1..] == webhookOrder[i + 1..];
        var hook := webhooks[webhookOrder[i]];
        if event in hook.events {
          urls := urls + [hook.url];
        }
      }
      assert webhookOrder[|webhookOrder|..] == [];
    }

    /**
     * `trigger_webhooks`: one POST per selected URL, in order; a failed POST
     * is caught, so every URL gets its attempt and nothing is raised.
     */
    method TriggerWebhooks(event: string, jobId: string, data: Payload)
      requires forall k :: k in webhookOrder ==> k in webhooks
      modifies this`deliveries
      ensures deliveries == old(deliveries) + Notify(TargetsFrom(webhookOrder, webhooks, event), event, jobId, data)
    {
      var urls := CollectWebhookTargets(event);
      ghost var before := deliveries;
      for i := 0 to |urls|
        invariant deliveries == before + Notify(urls[..i], event, jobId, data)
      {
        assert urls[..i + 1][..i] == urls[..i];
        deliveries := deliveries + [Delivery(urls[i], Notification(event, jobId, data))];
      }
      assert urls[..|urls|] == urls;
    }

    /** The `except` block of `run_scrape_job`: FAILED with the message, then the failure webhooks. */
    method FailJob(id: string, message: string, now: Time)
      requires Valid() && id in jobs
      modifies this`jobs, this`deliveries
      ensures Valid()
      ensures jobs == old(jobs)[id := WithStatus(old(jobs)[id], Failed, now, NoKwargs.(error := Some(message)))]
      ensures deliveries == old(deliveries) + Notify(TargetsFrom(webhookOrder, webhooks, FailedEvent), FailedEvent, id, ErrorReport(message))
    {
      UpdateJobStatus(id, Failed, NoKwargs.(error := Some(message)), now);
      TriggerWebhooks(FailedEvent, id, ErrorReport(message));
    }

    /**
     * The `try` body of `run_scrape_job` up to and including the save: load
     * the configuration, apply the request's overrides, scrape, and hand a
     * non-empty batch to `StoreBatch`.
     */
    method Attempt(request: ScrapeRequest, env: Collaborators) returns (v: RunVerdict)
      modifies this`saveCalls
      ensures v == Verdict(request, env)
      ensures saveCalls == old(saveCalls) + SaveCalls(v)
    {
      var loaded := env.loadConfig(ConfigSource(request));
      if loaded.Raised? {
        return Failure(loaded.message);
      }
      var overridden := Effective(loaded.value, request);
      if overridden.Raised? {
        return Failure(overridden.message);
      }
      var settings := overridden.value;
      var scraped := env.scrape(settings);
      if scraped.Raised? {
        return Failure(scraped.message);
      }
      var raw := scraped.value;
      if raw == [] {
        return EmptyScrape;
      }
      v := StoreBatch(raw, settings, env);
    }

    /**
     * Open the storage backend, deduplicate the batch by the configured key
     * field, drop the stored jobs, and save the rest if there are any.
     */
    method StoreBatch(raw: seq<Job>, settings: Settings, env: Collaborators) returns (v: RunVerdict)
      modifies this`saveCalls
      ensures v == StoreVerdict(raw, settings, env)
      ensures saveCalls == old(saveCalls) + SaveCalls(v)
    {
      if env.storageError.Some? {
        return Failure(env.storageError.value);
      }
      var keyName := KeyFieldName(settings);
      var keyField := FieldNamed(keyName);
      if keyField.None? {
        return Failure(AttributeErrorMessage(keyName));
      }
      var jobsFound := |raw|;
      var unique := RemoveWithinBatchDuplicates(raw, keyField.value);
      var newJobs, _ := FilterNewJobs(unique, env.inStore);
      if newJobs != [] {
        saveCalls := saveCalls + [newJobs];
        if env.saveError.Some? {
          return SaveFailed(env.saveError.value, newJobs);
        }
      }
      v := Scraped(jobsFound, newJobs);
    }

    /**
     * The end of a run: the terminal status update, then on failure the
     * `scrape.failed` webhooks, on completion of a non-empty scrape the
     * request's own webhook followed by the `scrape.completed` webhooks.
     */
    method Conclude(id: string, request: ScrapeRequest, v: RunVerdict, now: Time)
      requires Valid() && id in jobs
      modifies this`jobs, this`deliveries
      ensures Valid()
      ensures jobs == old(jobs)[id := Concluded(old(jobs)[id], v, now)]
      ensures deliveries == old(deliveries) + Posts(v, request, id, webhookOrder, webhooks)
    {
      match v
      case Failure(m) =>
        FailJob(id, m, now);
      case SaveFailed(m, _) =>
        FailJob(id, m, now);
      case EmptyScrape =>
        UpdateJobStatus(id, Completed, Kwargs(Some(0), Some(0), None, Some([])), now);
      case Scraped(n, newJobs) =>
        CompleteJob(id, request, n, newJobs, now);
    }

    /**
     * The success path of `run_scrape_job` after the save: COMPLETED with
     * the counts and the new jobs, then the request's own webhook, then the
     * `scrape.completed` webhooks, all with the same payload.
     */
    method CompleteJob(id: string, request: ScrapeRequest, found: nat, newJobs: seq<Job>, now: Time)
      requires Valid() && id in jobs
      modifies this`jobs, this`deliveries
      ensures Valid()
      ensures jobs == old(jobs)[id := WithStatus(old(jobs)[id], Completed, now, Kwargs(Some(found), Some(|newJobs|), None, Some(newJobs)))]
      ensures deliveries == old(deliveries) + Posts(Scraped(found, newJobs), request, id, webhookOrder, webhooks)
    {
      UpdateJobStatus(id, Completed, Kwargs(Some(found), Some(|newJobs|), None, Some(newJobs)), now);
      AnnounceCompletion(id, request, found, newJobs);
    }

    /**
     * The POSTs of a completed run: the request's own webhook, then the
     * `scrape.completed` webhooks, all with the same payload.
     */
    method AnnounceCompletion(id: string, request: ScrapeRequest, found: nat, newJobs: seq<Job>)
      requires Valid()
      modifies this`deliveries
      ensures deliveries == old(deliveries) + Posts(Scraped(found, newJobs), request, id, webhookOrder, webhooks)
    {
      var data := CompletionData(found, newJobs);
      ghost var before := deliveries;
      PostToRequestWebhook(request, data);
      TriggerWebhooks(CompletedEvent, id, data);
      Regroup(before, OwnPost(request, data), Notify(TargetsFrom(webhookOrder, webhooks, CompletedEvent), CompletedEvent, id, data));
    }

    /** The POST of a completion payload to the request's own `webhook_url`, when it has one. */
    method PostToRequestWebhook(request: ScrapeRequest, data: Payload)
      modifies this`deliveries
      ensures deliveries == old(deliveries) + OwnPost(request, data)
    {
      if request.webhookUrl.Some? {
        deliveries := deliveries + [Delivery(request.webhookUrl.value, JobWebhookBody(data))];
      }
    }

    /**
     * `run_scrape_job`: an unknown id has no effect; otherwise the job goes
     * RUNNING at `t1` and ends at `t2` as `Verdict` says, with the webhook
     * calls of `Posts` and the `save` calls of `SaveCalls`.
     */
    method RunScrapeJob(id: string, env: Collaborators, t1: Time, t2: Time)
      requires Valid()
      modifies this`jobs, this`deliveries, this`saveCalls
      ensures Valid()
      ensures id !in old(jobs) ==> jobs == old(jobs) && deliveries == old(deliveries) && saveCalls == old(saveCalls)
      ensures id in old(jobs) ==>
        var v := Verdict(old(jobs)[id].request, env);
        && jobs == old(jobs)[id := FinalJob(old(jobs)[id], v, t1, t2)]
        && deliveries == old(deliveries) + Posts(v, old(jobs)[id].request, id, webhookOrder, webhooks)
        && saveCalls == old(saveCalls) + SaveCalls(v)
    {
      var found := GetJob(id);
      if found.Some? {
        Run(id, found.value.request, env, t1, t2);
      }
    }

    /** A run of the registered job `id`, whose request is `request`. */
    method Run(id: string, request: ScrapeRequest, env: Collaborators, t1: Time, t2: Time)
      requires Valid() && id in jobs && jobs[id].request == request
      modifies this`jobs, this`deliveries, this`saveCalls
      ensures Valid()
      ensures jobs == old(jobs)[id := FinalJob(old(jobs)[id], Verdict(request, env), t1, t2)]
      ensures deliveries == old(deliveries) + Posts(Verdict(request, env), request, id, webhookOrder, webhooks)
      ensures saveCalls == old(saveCalls) + SaveCalls(Verdict(request, env))
    {
      ghost var job := jobs[id];
      UpdateJobStatus(id, Running, NoKwargs, t1);
      ghost var running := WithStatus(job, Running, t1, NoKwargs);
      assert jobs == old(jobs)[id := running];
      var v := Attempt(request, env);
      Conclude(id, request, v, t2);
      Overwrite(old(jobs), id, running, FinalJob(job, v, t1, t2));
    }
  }

  // ---------------------------------------------------------------------
  // Properties of the listing

  lemma {:induction false} InsertNewestBounded(x: ScrapeJob, s: seq<ScrapeJob>, bound: Time)
    requires x.createdAt <= bound
    requires forall i :: 0 <= i < |s| ==> s[i].createdAt <= bound
    ensures forall i :: 0 <= i < |InsertNewest(x, s)| ==> InsertNewest(x, s)[i].createdAt <= bound
    decreases |s|
  {
    if s != [] && s[0].createdAt > x.createdAt {
      InsertNewestBounded(x, s[1..], bound);
    }
  }

  lemma {:induction false} InsertNewestSorted(x: ScrapeJob, sorted: seq<ScrapeJob>)
    requires SortedNewestFirst(sorted)
    ensures SortedNewestFirst(InsertNewest(x, sorted))
    decreases |sorted|
  {
    if sorted != [] && sorted[0].createdAt > x.createdAt {
      var rest := InsertNewest(x, sorted[1..]);
      InsertNewestSorted(x, sorted[1..]);
      InsertNewestBounded(x, sorted[1..], sorted[0].createdAt);
      var r := [sorted[0]] + rest;
      forall i, j | 0 <= i < j < |r| ensures r[i].createdAt >= r[j].createdAt {
        assert r[j] == rest[j - 1];
        if i > 0 {
          assert r[i] == rest[i - 1];
        }
      }
    }
  }

  lemma {:induction false} InsertNewestPermutes(x: ScrapeJob, s: seq<ScrapeJob>)
    ensures multiset(InsertNewest(x, s)) == multiset(s) + multiset{x}
    decreases |s|
  {
    if s != [] && s[0].createdAt > x.createdAt {
      InsertNewestPermutes(x, s[1..]);
      assert s == [s[0]] + s[1..];
    }
  }

  /** Sorting gives a newest-first list. */
  lemma {:induction false} SortNewestFirstSorted(jobs: seq<ScrapeJob>)
    ensures SortedNewestFirst(SortNewestFirst(jobs))
    decreases |jobs|
  {
    if jobs != [] {
      SortNewestFirstSorted(jobs[1..]);
      InsertNewestSorted(jobs[0], SortNewestFirst(jobs[1..]));
    }
  }

  /** Sorting keeps every job, as often as it occurs. */
  lemma {:induction false} SortNewestFirstPermutes(jobs: seq<ScrapeJob>)
    ensures multiset(SortNewestFirst(jobs)) == multiset(jobs)
    decreases |jobs|
  {
    if jobs != [] {
      SortNewestFirstPermutes(jobs[1..]);
      InsertNewestPermutes(jobs[0], SortNewestFirst(jobs[1..]));
      assert jobs == [jobs[0]] + jobs[1..];
    }
  }

  /** The listing of `selected` cut at `limit`. */
  function Listing(selected: seq<ScrapeJob>, limit: int): seq<ScrapeJob> {
    SliceTo(SortNewestFirst(selected), limit)
  }

  /** The listing is sorted newest first and as long as the Python slice says. */
  lemma ListingShape(selected: seq<ScrapeJob>, limit: int)
    ensures SortedNewestFirst(Listing(selected, limit))
    ensures |Listing(selected, limit)| == SliceLength(|selected|, limit)
  {
    var sorted := SortNewestFirst(selected);
    SortNewestFirstSorted(selected);
    SortNewestFirstPermutes(selected);
    assert |sorted| == |selected| by {
      assert |multiset(sorted)| == |multiset(selected)|;
    }
    NewestPrefix(sorted, SliceLength(|sorted|, limit));
  }

  /** The listing is drawn from `selected`, and is all of it when the limit allows. */
  lemma ListingDrawn(selected: seq<ScrapeJob>, limit: int)
    ensures multiset(Listing(selected, limit)) <= multiset(selected)
    ensures forall j :: j in Listing(selected, limit) ==> j in selected
    ensures limit >= |selected| ==> multiset(Listing(selected, limit)) == multiset(selected)
  {
    var sorted := SortNewestFirst(selected);
    SortNewestFirstSorted(selected);
    SortNewestFirstPermutes(selected);
    assert |sorted| == |selected| by {
      assert |multiset(sorted)| == |multiset(selected)|;
    }
    NewestPrefix(sorted, SliceLength(|sorted|, limit));
    SameMembers(selected, sorted);
    if limit >= |selected| {
      assert Listing(selected, limit) == sorted;
    }
  }

  /** No job left out of the listing is newer than a job in it. */
  lemma ListingNewest(selected: seq<ScrapeJob>, limit: int)
    ensures forall j, k :: j in selected && j !in Listing(selected, limit) && k in Listing(selected, limit) ==>
      j.createdAt <= k.createdAt
  {
    var sorted := SortNewestFirst(selected);
    SortNewestFirstSorted(selected);
    SortNewestFirstPermutes(selected);
    NewestPrefix(sorted, SliceLength(|sorted|, limit));
    SameMembers(selected, sorted);
  }

  lemma SameMembers(a: seq<ScrapeJob>, b: seq<ScrapeJob>)
    requires multiset(a) == multiset(b)
    ensures forall j :: j in a <==> j in b
  {
    forall j ensures j in a <==> j in b {
      assert j in multiset(a) <==> j in multiset(b);
    }
  }

  /** A prefix of a newest-first list is newest-first and holds the newest of its jobs. */
  lemma NewestPrefix(sorted: seq<ScrapeJob>, n: nat)
    requires SortedNewestFirst(sorted) && n <= |sorted|
    ensures SortedNewestFirst(sorted[..n])
    ensures multiset(sorted[..n]) <= multiset(sorted)
    ensures forall j :: j in sorted[..n] ==> j in sorted
    ensures forall j, k :: j in sorted && j !in sorted[..n] && k in sorted[..n] ==> j.createdAt <= k.createdAt
  {
    assert sorted == sorted[..n] + sorted[n..];
    assert multiset(sorted) == multiset(sorted[..n]) + multiset(sorted[n..]);
    forall j, k | j in sorted && j !in sorted[..n] && k in sorted[..n] ensures j.createdAt <= k.createdAt {
      var p :| 0 <= p < |sorted| && sorted[p] == j;
      var q :| 0 <= q < n && sorted[..n][q] == k;
      assert p >= n;
    }
  }

  lemma CreatedAtCons(y: ScrapeJob, s: seq<ScrapeJob>, t: Time)
    ensures CreatedAt([y] + s, t) == (if y.createdAt == t then [y] else []) + CreatedAt(s, t)
  {
    assert ([y] + s)[1..] == s;
  }

  lemma {:induction false} InsertNewestStable(x: ScrapeJob, sorted: seq<ScrapeJob>, t: Time)
    ensures CreatedAt(InsertNewest(x, sorted), t) == (if x.createdAt == t then [x] else []) + CreatedAt(sorted, t)
    decreases |sorted|
  {
    if sorted == [] || sorted[0].createdAt <= x.createdAt {
      CreatedAtCons(x, sorted, t);
    } else {
      var y, tail := sorted[0], sorted[1..];
      var rest := InsertNewest(x, tail);
      InsertNewestStable(x, tail, t);
      CreatedAtCons(y, rest, t);
      assert sorted == [y] + tail;
      CreatedAtCons(y, tail, t);
      if x.createdAt == t {
        assert y.createdAt != t;
      }
    }
  }

  /** The sort is stable: jobs created at the same time keep their relative order. */
  lemma {:induction false} SortNewestFirstStable(jobs: seq<ScrapeJob>, t: Time)
    ensures CreatedAt(SortNewestFirst(jobs), t) == CreatedAt(jobs, t)
    decreases |jobs|
  {
    if jobs != [] {
      SortNewestFirstStable(jobs[1..], t);
      InsertNewestStable(jobs[0], SortNewestFirst(jobs[1..]), t);
    }
  }

  lemma {:induction false} FilterStatusMembers(jobs: seq<ScrapeJob>, status: JobStatus, j: ScrapeJob)
    ensures j in FilterStatus(jobs, status) <==> j in jobs && j.status == status
    decreases |jobs|
  {
    if jobs != [] {
      FilterStatusMembers(jobs[1..], status, j);
      assert jobs == [jobs[0]] + jobs[1..];
    }
  }

  /** The jobs considered by the listing are exactly the registered jobs with the requested status. */
  lemma MatchingMembers(m: JobManager, status: Option<JobStatus>)
    requires m.Valid()
    ensures forall j :: j in m.Matching(status) <==> j in m.jobs.Values && (status.Some? ==> j.status == status.value)
  {
    var all := ValuesInOrder(m.jobOrder, m.jobs);
    forall j ensures j in all <==> j in m.jobs.Values {
      if j in m.jobs.Values {
        var id :| id in m.jobs && m.jobs[id] == j;
        var i :| 0 <= i < |m.jobOrder| && m.jobOrder[i] == id;
        assert all[i] == j;
      }
    }
    if status.Some? {
      forall j ensures j in m.Matching(status) <==> j in all && j.status == status.value {
        FilterStatusMembers(all, status.value, j);
      }
    }
  }

  // ---------------------------------------------------------------------
  // Properties of the status updates

  /** The status is overwritten whatever it was: even a finished job can be sent back to PENDING. */
  lemma NoTransitionCheck(job: ScrapeJob, status: JobStatus, now: Time, kw: Kwargs)
    ensures WithStatus(job, status, now, kw).status == status
    ensures job.status == Completed ==> WithStatus(job, Pending, now, kw).status == Pending
  {
  }

  lemma {:induction false} ApplyAllSnoc(job: ScrapeJob, updates: seq<StatusUpdate>, u: StatusUpdate)
    ensures ApplyAll(job, updates + [u]) == WithStatus(ApplyAll(job, updates), u.status, u.now, u.kw)
    decreases |updates|
  {
    if updates == [] {
      assert [] + [u] == [u];
    } else {
      assert (updates + [u])[1..] == updates[1..] + [u];
      ApplyAllSnoc(WithStatus(job, updates[0].status, updates[0].now, updates[0].kw), updates[1..], u);
    }
  }

  /**
   * `started_at` is set once: after any series of updates it is the job's
   * own if it had one, else the time of the first RUNNING update.
   */
  lemma {:induction false} StartedAtSetOnce(job: ScrapeJob, updates: seq<StatusUpdate>)
    ensures ApplyAll(job, updates).startedAt ==
      if job.startedAt.Some? then job.startedAt else FirstRunning(updates)
    decreases |updates|
  {
    if updates != [] {
      StartedAtSetOnce(WithStatus(job, updates[0].status, updates[0].now, updates[0].kw), updates[1..]);
    }
  }

  /** `completed_at` is reset by every terminal update: it is the time of the last one, if any. */
  lemma {:induction false} CompletedAtIsLastTerminal(job: ScrapeJob, updates: seq<StatusUpdate>)
    ensures ApplyAll(job, updates).completedAt ==
      if LastTerminal(updates).Some? then LastTerminal(updates) else job.completedAt
    decreases |updates|
  {
    if updates != [] {
      var init := updates[..|updates| - 1];
      var last := updates[|updates| - 1];
      assert updates == init + [last];
      ApplyAllSnoc(job, init, last);
      CompletedAtIsLastTerminal(job, init);
    }
  }

  /** After a non-empty series of updates the status is that of the last update. */
  lemma LastStatusWins(job: ScrapeJob, updates: seq<StatusUpdate>)
    requires updates != []
    ensures ApplyAll(job, updates).status == updates[|updates| - 1].status
  {
    var init := updates[..|updates| - 1];
    assert updates == init + [updates[|updates| - 1]];
    ApplyAllSnoc(job, init, updates[|updates| - 1]);
  }

  // ---------------------------------------------------------------------
  // Properties of the registries

  /** Ids generated with clock stamps of one width differ when the stamps or the id suffixes differ. */
  lemma JobIdsDistinguish(stamp1: string, hex1: string, stamp2: string, hex2: string)
    requires |stamp1| == |stamp2| && |hex1| >= 8 && |hex2| >= 8
    requires JobIdFor(stamp1, hex1) == JobIdFor(stamp2, hex2)
    ensures stamp1 == stamp2 && hex1[..8] == hex2[..8]
  {
    var id := JobIdFor(stamp1, hex1);
    assert stamp1 == id[7..7 + |stamp1|];
    assert stamp2 == JobIdFor(stamp2, hex2)[7..7 + |stamp2|];
    assert hex1[..8] == id[8 + |stamp1|..];
    assert hex2[..8] == JobIdFor(stamp2, hex2)[8 + |stamp2|..];
  }

  lemma {:induction false} TargetsMembers(order: seq<string>, hooks: map<string, Webhook>, event: string, url: string)
    ensures url in TargetsFrom(order, hooks, event) <==>
      exists id :: id in order && id in hooks && event in hooks[id].events && hooks[id].url == url
    decreases |order|
  {
    if order != [] {
      TargetsMembers(order[1..], hooks, event, url);
      if exists id :: id in order && id in hooks && event in hooks[id].events && hooks[id].url == url {
        var id :| id in order && id in hooks && event in hooks[id].events && hooks[id].url == url;
        if id != order[0] {
          assert id in order[1..];
        }
      }
      if url in TargetsFrom(order[1..], hooks, event) {
        var id :| id in order[1..] && id in hooks && event in hooks[id].events && hooks[id].url == url;
        assert id in order;
      }
    }
  }

  lemma DistinctTail(order: seq<string>)
    requires Distinct(order) && order != []
    ensures Distinct(order[1..]) && order[0] !in order[1..]
  {
    forall m | 0 <= m < |order| - 1 ensures order[1..][m] != order[0] {
      assert order[1..][m] == order[m + 1];
    }
  }

  /** The registrations subscribed to an event among the ids of `order`. */
  function Subscribed(order: seq<string>, hooks: map<string, Webhook>, event: string): set<string>
  {
    set id | id in order && id in hooks && event in hooks[id].events
  }

  lemma {:induction false} TargetsCount(order: seq<string>, hooks: map<string, Webhook>, event: string)
    requires Distinct(order)
    ensures |TargetsFrom(order, hooks, event)| == |Subscribed(order, hooks, event)|
    decreases |order|
  {
    if order != [] {
      var tail := order[1..];
      DistinctTail(order);
      TargetsCount(tail, hooks, event);
      var rest := Subscribed(tail, hooks, event);
      assert order[0] !in rest;
      if order[0] in hooks && event in hooks[order[0]].events {
        assert Subscribed(order, hooks, event) == {order[0]} + rest;
      } else {
        assert Subscribed(order, hooks, event) == rest;
      }
    }
  }

  /**
   * `trigger_webhooks` targets exactly the URLs of the registrations whose
   * events contain the event: one URL per such registration.
   */
  lemma WebhookSelection(m: JobManager, event: string, url: string)
    requires m.Valid()
    ensures url in TargetsFrom(m.webhookOrder, m.webhooks, event) <==>
      exists id :: id in m.webhooks && event in m.webhooks[id].events && m.webhooks[id].url == url
    ensures |TargetsFrom(m.webhookOrder, m.webhooks, event)| ==
      |set id | id in m.webhooks && event in m.webhooks[id].events|
  {
    TargetsMembers(m.webhookOrder, m.webhooks, event, url);
    TargetsCount(m.webhookOrder, m.webhooks, event);
    assert Subscribed(m.webhookOrder, m.webhooks, event) == set id | id in m.webhooks && event in m.webhooks[id].events;
  }

  // ---------------------------------------------------------------------
  // Properties of a run

  /**
   * The overrides: without a `headless` field the request turns headless mode
   * on; with `null` the configuration decides. An override fails with
   * `KeyError` exactly when the configuration has no `scraper` section, and
   * a request that overrides nothing runs the configuration as loaded.
   */
  lemma HeadlessOverride(config: Settings, request: ScrapeRequest)
    ensures Effective(config, DefaultRequest).Ok? <==> config.hasScraperSection
    ensures Effective(config, DefaultRequest).Ok? ==> Effective(config, DefaultRequest).value.headless
    ensures Effective(config, request).Raised? <==>
      (request.headless.Some? || request.maxPages.Some?) && !config.hasScraperSection
    ensures Effective(config, request).Raised? ==> Effective(config, request).message == ScraperKeyErrorMessage
    ensures request.headless.None? && request.maxPages.None? ==> Effective(config, request) == Ok(config)
    ensures Effective(config, request).Ok? ==>
      var s := Effective(config, request).value;
      && s.headless == (if request.headless.Some? then request.headless.value else config.headless)
      && s.maxPages == (if request.maxPages.Some? then request.maxPages.value else config.maxPages)
      && s.keyField == config.keyField
  {
  }

  /** Every run ends COMPLETED or FAILED, with a start time and a completion time. */
  lemma RunReachesTerminalState(job: ScrapeJob, v: RunVerdict, t1: Time, t2: Time)
    ensures FinalJob(job, v, t1, t2).status in {Completed, Failed}
    ensures FinalJob(job, v, t1, t2).startedAt == if job.startedAt.Some? then job.startedAt else Some(t1)
    ensures FinalJob(job, v, t1, t2).completedAt == Some(t2)
    ensures FinalJob(job, v, t1, t2).status == Failed <==> v.Failure? || v.SaveFailed?
  {
  }

  /** An empty scrape completes with zero counts and no results, calls no webhook and saves nothing. */
  lemma EmptyScrapeOutcome(job: ScrapeJob, env: Collaborators, config: Settings, t1: Time, t2: Time,
                           order: seq<string>, hooks: map<string, Webhook>)
    requires env.loadConfig(ConfigSource(job.request)) == Ok(config)
    requires Effective(config, job.request).Ok?
    requires env.scrape(Effective(config, job.request).value) == Ok([])
    ensures Verdict(job.request, env) == EmptyScrape
    ensures var r := FinalJob(job, EmptyScrape, t1, t2);
      r.status == Completed && r.jobsFound == Some(0) && r.jobsNew == Some(0) && r.results == []
    ensures Posts(EmptyScrape, job.request, job.jobId, order, hooks) == []
    ensures SaveCalls(EmptyScrape) == []
  {
  }

  /**
   * A successful non-empty scrape: `jobs_found` is the raw count before the
   * batch pass, the results are the batch-deduplicated jobs the backend does
   * not hold, and `save` gets them iff there is at least one.
   */
  lemma ScrapedOutcome(job: ScrapeJob, env: Collaborators, config: Settings, raw: seq<Job>, f: KeyField, t1: Time, t2: Time)
    requires env.loadConfig(ConfigSource(job.request)) == Ok(config)
    requires Effective(config, job.request).Ok?
    requires env.scrape(Effective(config, job.request).value) == Ok(raw) && raw != []
    requires env.storageError.None?
    requires FieldNamed(KeyFieldName(config)) == Some(f)
    requires env.saveError.None?
    ensures var novel := Unseen(Dedup(raw, f), env.inStore);
      && Verdict(job.request, env) == Scraped(|raw|, novel)
      && FinalJob(job, Scraped(|raw|, novel), t1, t2).jobsFound == Some(|raw|)
      && FinalJob(job, Scraped(|raw|, novel), t1, t2).jobsNew == Some(|novel|)
      && FinalJob(job, Scraped(|raw|, novel), t1, t2).results == novel
      && (SaveCalls(Scraped(|raw|, novel)) == [novel] <==> novel != [])
      && |novel| <= |raw|
  {
    var novel := Unseen(Dedup(raw, f), env.inStore);
    DedupLength(raw, f);
    UnseenLength(Dedup(raw, f), env.inStore);
  }

  /**
   * A batch [A, B, A'] where A' repeats A's URL, with nothing stored: three
   * jobs found, two new, the results being A then B.
   */
  lemma RepeatedUrlExample(job: ScrapeJob, env: Collaborators, config: Settings, a: Job, b: Job, a2: Job)
    requires env.loadConfig(ConfigSource(job.request)) == Ok(config)
    requires Effective(config, job.request).Ok?
    requires env.scrape(Effective(config, job.request).value) == Ok([a, b, a2])
    requires env.storageError.None? && env.saveError.None?
    requires config.keyField.None?
    requires forall j :: !env.inStore(j)
    requires a2.jobUrl == a.jobUrl && b.jobUrl != a.jobUrl
    ensures Verdict(job.request, env) == Scraped(3, [a, b])
  {
    var raw := [a, b, a2];
    assert FieldNamed(KeyFieldName(Effective(config, job.request).value)) == Some(JobUrl);
    var ka, kb := KeyOf(a, JobUrl), KeyOf(b, JobUrl);
    assert ka == Some(a.jobUrl) && kb == Some(b.jobUrl) && KeyOf(a2, JobUrl) == ka && kb != ka;
    assert raw[1..] == [b, a2] && [b, a2][1..] == [a2] && [a2][1..] == [];
    assert DedupFrom([], JobUrl, {ka, kb}) == [];
    assert DedupFrom([a2], JobUrl, {ka, kb}) == [];
    assert DedupFrom([b, a2], JobUrl, {ka}) == [b] + DedupFrom([a2], JobUrl, {ka} + {kb});
    assert {ka} + {kb} == {ka, kb};
    assert DedupFrom(raw, JobUrl, {}) == [a] + DedupFrom([b, a2], JobUrl, {} + {ka});
    assert {} + {ka} == {ka};
    assert Dedup(raw, JobUrl) == [a, b];
    assert [a, b][1..] == [b] && [b][1..] == [];
    assert Unseen([b], env.inStore) == [b] + Unseen([], env.inStore);
    assert Unseen([a, b], env.inStore) == [a] + Unseen([b], env.inStore);
  }

  /**
   * A failing run (any exception before completion) ends FAILED with the
   * exception's message and fires only `scrape.failed`, with the error as
   * its data; the request's own webhook is not called.
   */
  lemma FailureOutcome(job: ScrapeJob, v: RunVerdict, t1: Time, t2: Time, order: seq<string>, hooks: map<string, Webhook>)
    requires v.Failure? || v.SaveFailed?
    ensures FinalJob(job, v, t1, t2).status == Failed
    ensures FinalJob(job, v, t1, t2).error == Some(v.message)
    ensures var posts := Posts(v, job.request, job.jobId, order, hooks);
      var targets := TargetsFrom(order, hooks, FailedEvent);
      && |posts| == |targets|
      && forall i :: 0 <= i < |posts| ==>
           posts[i] == Delivery(targets[i], Notification(FailedEvent, job.jobId, ErrorReport(v.message)))
  {
  }

  /** `save` is only called with a non-empty batch of jobs the backend does not hold. */
  lemma SaveOnlyNonEmpty(request: ScrapeRequest, env: Collaborators, batch: seq<Job>)
    requires batch in SaveCalls(Verdict(request, env))
    ensures batch != []
    ensures forall j :: j in batch ==> !env.inStore(j)
  {
    var v := Verdict(request, env);
    match env.loadConfig(ConfigSource(request))
    case Ok(config) =>
      match Effective(config, request)
      case Ok(settings) =>
        match env.scrape(settings)
        case Ok(raw) =>
          match FieldNamed(KeyFieldName(settings))
          case Some(f) =>
            forall j | j in batch ensures !env.inStore(j) {
              UnseenMembership(Dedup(raw, f), env.inStore, j);
            }
  }

  /**
   * Every completion payload holds the counts of the final job and at most
   * the first ten of its results.
   */
  lemma PayloadBounded(job: ScrapeJob, v: RunVerdict, t1: Time, t2: Time, order: seq<string>, hooks: map<string, Webhook>, d: Delivery)
    requires v.Scraped?
    requires d in Posts(v, job.request, job.jobId, order, hooks)
    ensures d.body.data.Summary?
    ensures var r := FinalJob(job, v, t1, t2);
      && |d.body.data.jobs| == Min(PayloadJobLimit, |r.results|)
      && d.body.data.jobs == r.results[..|d.body.data.jobs|]
      && Some(d.body.data.jobsFound) == r.jobsFound
      && Some(d.body.data.jobsNew) == r.jobsNew
  {
    var data := CompletionData(v.jobsFound, v.newJobs);
    var urls := TargetsFrom(order, hooks, CompletedEvent);
    if d !in Notify(urls, CompletedEvent, job.jobId, data) {
      assert d == Delivery(job.request.webhookUrl.value, JobWebhookBody(data));
    }
  }

  /**
   * A completed non-empty scrape posts first to the request's own webhook,
   * when it has one, then once to every target of `scrape.completed`.
   */
  lemma CompletionPosts(request: ScrapeRequest, id: string, found: nat, novel: seq<Job>, order: seq<string>, hooks: map<string, Webhook>)
    ensures var posts := Posts(Scraped(found, novel), request, id, order, hooks);
      var own := if request.webhookUrl.Some? then 1 else 0;
      && |posts| == own + |TargetsFrom(order, hooks, CompletedEvent)|
      && (request.webhookUrl.Some? ==> posts[0] == Delivery(request.webhookUrl.value, JobWebhookBody(CompletionData(found, novel))))
      && forall i :: 0 <= i < |TargetsFrom(order, hooks, CompletedEvent)| ==>
           posts[own + i] == Delivery(TargetsFrom(order, hooks, CompletedEvent)[i],
                                      Notification(CompletedEvent, id, CompletionData(found, novel)))
  {
    var urls := TargetsFrom(order, hooks, CompletedEvent);
    var data := CompletionData(found, novel);
    assert Posts(Scraped(found, novel), request, id, order, hooks) == OwnPost(request, data) + Notify(urls, CompletedEvent, id, data);
    CompletionLayout(request, id, data, urls, Notify(urls, CompletedEvent, id, data));
  }

  /** The own POST, if any, comes first; the notifications `notes`, one per URL, follow. */
  lemma CompletionLayout(request: ScrapeRequest, id: string, data: Payload, urls: seq<string>, notes: seq<Delivery>)
    requires |notes| == |urls|
    requires forall i :: 0 <= i < |urls| ==> notes[i] == Delivery(urls[i], Notification(CompletedEvent, id, data))
    ensures var posts := OwnPost(request, data) + notes;
      var own := if request.webhookUrl.Some? then 1 else 0;
      && |posts| == own + |urls|
      && (request.webhookUrl.Some? ==> posts[0] == Delivery(request.webhookUrl.value, JobWebhookBody(data)))
      && forall i :: 0 <= i < |urls| ==> posts[own + i] == Delivery(urls[i], Notification(CompletedEvent, id, data))
  {
    var first := OwnPost(request, data);
    AfterPrefix(first, notes);
    if request.webhookUrl.Some? {
      assert |first| == 1 && (first + notes)[0] == first[0];
    } else {
      assert first == [];
    }
  }
}
