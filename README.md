# Seek job scraper: job manager, deduplication, key authentication and job-type backfill

This project is a Dafny model of the core of a job-listing scraper service.
It covers four parts of the service.

- **The job manager** (`job_manager.dfy`, module `JobManagement`). It keeps a registry of scrape
  jobs and a registry of webhooks. Scrape jobs are created by API requests and go PENDING → RUNNING →
  COMPLETED/FAILED. A run loads the configuration, applies the request's overrides and calls the
  scraper. It then removes duplicates within the batch, drops the records the store already holds
  and saves the rest. It records the outcome on the job and POSTs to the request's own webhook and
  to every registered webhook that subscribed to the event. `JobManager` is a class whose fields
  the methods update in place. Each Python dictionary becomes a `map` plus a `seq` that keeps its
  insertion order. The HTTP POSTs are appended to a `deliveries` log and the storage `save` calls
  to a `saveCalls` log. Each method is proved against specification functions: `Verdict`,
  `Concluded`, `FinalJob`, `Posts`, `TargetsFrom` and `Listing`.
- **The deduplicator** (`deduplicator.dfy`, module `Deduplication`). It has the two passes, each
  as a method with a loop. Within-batch removal keeps the first record for each key value, and
  the store filter drops records the store already holds. Both are proved equal to the
  specification functions `Dedup` and `Unseen`. Lemmas prove the properties of those functions.
  The job record and the `getattr(job, key_field)` lookup are in `records.dfy` (module
  `Records`).
- **API-key authentication** (`auth.dfy`, module `Auth`). It covers how the `API_KEYS` variable is
  parsed (split on commas, strip each piece, drop empty pieces), whether authentication is on, and
  the decision on an `X-API-Key` header.
- **The job-type backfill script** (`backfill.dfy`, module `Backfill`). It covers the
  keyword classifier `infer_job_type` and the in-place pass that fills in missing `job_type`
  members of the loaded job array. It also covers the tally of job types.

`common.dfy` holds `Option`, `Outcome` (a value or the message of a raised exception) and Python
string truthiness.

Points where the code may surprise a reader:
- `jobs_found` is the number of scraped records *before* deduplication. The run lemma
  `ScrapedOutcome` states this.
- A scrape that returns no records completes with 0/0/[]. It saves nothing and returns before
  any webhook is called. No `scrape.completed` notification is sent for an empty scrape.
- `update_job_status` does not check the transition. Any status may follow any other, and a
  job may be run again.
- `list_jobs` slices with Python semantics, so a negative `limit` drops jobs from the end.

## Model

| member | source | states |
|---|---|---|
| Records.FieldNamed | src/utils/deduplicator.py:59 | resolves the key-field name as `getattr` does: the field it returns carries that name, and `None` means no field of the record has the name (the source raises AttributeError) |
| Records.FieldNamedRoundTrip | src/api/models.py:17-30 | every field of the job record is found again by its own name |
| Records.KeyOf | src/utils/deduplicator.py:59 | `getattr(job, key_field)` for a known field: the field's value, with `None` for an unset optional field |
| Records.KeyOfRequired | src/utils/deduplicator.py:59 | only an optional field can give the key `None`; the default `job_url` key is the record's url |
| Deduplication.RemoveWithinBatchDuplicates | src/utils/deduplicator.py:46-69 | the loop over the batch with its `seen` set returns exactly `Dedup(jobs, keyField)` |
| Deduplication.FilterNewJobs | src/utils/deduplicator.py:24-44 | the loop returns exactly the records the store does not hold, in order, and `seen_count` plus the number of new jobs is the batch size |
| Deduplication.DedupFrom | src/utils/deduplicator.py:55-62 | the batch pass from a set of already-seen keys: a record is kept iff its key is not yet seen, and its key is then seen; its properties are the lemmas below |
| Deduplication.Dedup | src/utils/deduplicator.py:55-69 | `remove_within_batch_duplicates`: the batch pass starting from no seen key |
| Deduplication.Unseen | src/utils/deduplicator.py:33-44 | `filter_new_jobs`: the records for which `storage.exists` is false, in order; its properties are the lemmas below |
| Deduplication.DedupIsSubsequence | src/utils/deduplicator.py:58-62 | the unique jobs are a subsequence of the batch, with the order kept |
| Deduplication.DedupFromIsSubsequence | src/utils/deduplicator.py:58-62 | the same for the pass that starts from any set of already-seen keys |
| Deduplication.DedupFromKeys | src/utils/deduplicator.py:58-62 | the keys kept are exactly the batch's keys minus those already seen |
| Deduplication.DedupKeepsEveryKey | src/utils/deduplicator.py:55-69 | every key value of the batch survives the pass |
| Deduplication.DedupFromDistinct | src/utils/deduplicator.py:58-62 | no two kept records share a key, whatever keys were already seen |
| Deduplication.DedupKeysDistinct | src/utils/deduplicator.py:55-69 | no two unique jobs share a key value |
| Deduplication.DedupFromKeepsFirst | src/utils/deduplicator.py:58-62 | the first record with a key that was not seen before is kept |
| Deduplication.DedupKeepsFirstOccurrence | src/utils/deduplicator.py:55-69 | the first record carrying each key is the one kept |
| Deduplication.DistinctFixpoint | src/utils/deduplicator.py:58-62 | a batch with distinct keys, none already seen, passes through unchanged |
| Deduplication.DedupFromLength | src/utils/deduplicator.py:58-62 | the pass never lengthens the batch, and keeps every record only when the keys are distinct and unseen |
| Deduplication.DedupLength | src/utils/deduplicator.py:66-67 | the pass removes something exactly when two records share a key, which is when the source logs "Removed … duplicates"; a batch with distinct keys is returned unchanged |
| Deduplication.DedupIdempotent | src/utils/deduplicator.py:46-69 | running the batch pass twice is running it once |
| Deduplication.UnseenIsSubsequence | src/utils/deduplicator.py:36-38 | the new jobs are a subsequence of the input |
| Deduplication.UnseenCounts | src/utils/deduplicator.py:36-40 | each record occurs among the new jobs as often as in the input if the store lacks it, and never otherwise |
| Deduplication.UnseenLength | src/utils/deduplicator.py:36-40 | filtering never lengthens the batch |
| Deduplication.UnseenMembership | src/utils/deduplicator.py:36-40 | a record is new iff it is in the input and the store does not hold it |
| Auth.TrimLeft | src/api/auth.py:13 | `lstrip`: the result is a suffix of the input, everything removed is whitespace, and it does not start with whitespace |
| Auth.TrimRight | src/api/auth.py:13 | `rstrip`: the result is a prefix of the input, everything removed is whitespace, and it does not end with whitespace |
| Auth.Strip | src/api/auth.py:13 | `strip()`: the result has no surrounding whitespace and is empty iff the piece was all whitespace; `StripIsSlice` shows it is the piece minus its surrounding whitespace |
| Auth.StripIsSlice | src/api/auth.py:13 | the stripped piece is a slice of the piece with only whitespace before and after it |
| Auth.Split | src/api/auth.py:12 | `split(",")` gives at least one piece, and no piece holds the separator |
| Auth.SplitJoin | src/api/auth.py:12 | splitting the comma-joined pieces gives the pieces back when none holds a comma |
| Auth.JoinSplit | src/api/auth.py:12 | joining the split pieces with the separator gives the string back |
| Auth.SplitNoSeparator | src/api/auth.py:12 | a string without the separator splits into itself alone |
| Auth.StripFixpoint | src/api/auth.py:13 | a string is its own strip iff it has no surrounding whitespace |
| Auth.StripIdempotent | src/api/auth.py:13 | stripping twice is stripping once |
| Auth.NonEmptyStrippedMembership | src/api/auth.py:13 | the comprehension keeps exactly the non-empty strips of the pieces |
| Auth.ParsedKeysMembership | src/api/auth.py:12-13 | a string is a configured key iff it is the non-empty strip of a comma-separated piece of `API_KEYS` |
| Auth.ParsedKeysWellFormed | src/api/auth.py:12-13 | every configured key is non-empty, has no surrounding whitespace and holds no comma |
| Auth.MissingVariableDisablesAuth | src/api/auth.py:12-16 | an unset `API_KEYS` gives no key, so authentication is off |
| Auth.ParseJoinedKeys | src/api/auth.py:12-13 | well-formed keys written as a comma-separated list are read back exactly, in order |
| Auth.NonEmptyStrippedIdentity | src/api/auth.py:13 | pieces that are already stripped and non-empty are kept as they are |
| Auth.NonEmptyStripped | src/api/auth.py:13 | the comprehension `[key.strip() for key in pieces if key.strip()]`, in order; characterised by `NonEmptyStrippedMembership` and `NonEmptyStrippedIdentity` |
| Auth.ParseApiKeys | src/api/auth.py:12-13 | `API_KEYS`: the variable (default "") split on commas, stripped, empty pieces dropped; characterised by `ParsedKeysMembership`, `ParsedKeysWellFormed` and `ParseJoinedKeys` |
| Auth.AuthEnabled | src/api/auth.py:16 | `AUTH_ENABLED`: at least one key is configured |
| Auth.VerifyApiKey | src/api/auth.py:21-59 | with no keys configured, every request gets "auth_disabled"; otherwise a request is allowed iff its header is non-empty and one of the keys, and the header is returned; a refusal is 401 with `WWW-Authenticate: ApiKey`, "Missing API key…" exactly when the header is absent or empty and "Invalid API key" otherwise |
| Auth.PaddedKeyRefused | src/api/auth.py:52-57 | the header is compared unstripped: a header with surrounding whitespace is always refused as invalid |
| Backfill.InferencePriority | backfill_job_types.py:11-50 | a falsy description gives Full-time; otherwise the first keyword group that occurs in the lower-cased description-plus-salary text decides, in the order contract, casual, part-time, and Full-time is the result iff none of the three occurs |
| Backfill.InferJobType | backfill_job_types.py:11-50 | `infer_job_type`: Full-time for a falsy description, else the first keyword group found in the lower-cased description plus salary; its contract is `InferencePriority` |
| Backfill.AnalysedText | backfill_job_types.py:25-27 | the text searched: the lower-cased description, then a space and the lower-cased salary when the salary is truthy |
| Backfill.LabelIsKnown | backfill_job_types.py:11-50 | the inferred type is one of the four labels |
| Backfill.SalaryKeywordCounts | backfill_job_types.py:25-27 | a keyword found only in a non-empty salary still counts, because the salary text is appended to the description |
| Backfill.ContractKeywordInSalary | backfill_job_types.py:25-32 | a contract keyword in the salary makes the job Contract/Temp |
| Backfill.ContainsInSuffix | backfill_job_types.py:31 | a substring of the appended text is a substring of the whole text |
| Backfill.LowerIdempotent | backfill_job_types.py:25 | lower-casing twice is lower-casing once |
| Backfill.CaseInsensitive | backfill_job_types.py:25-27 | the classification does not depend on the case of the ASCII letters in its inputs |
| Backfill.BackfillJobTypes | backfill_job_types.py:62-72 | after the loop every job has a truthy `job_type`; each job with a missing or falsy `job_type` gets the inferred label, computed from `description` (default "") and `salary`, and every other job is unchanged; both counters equal the number of jobs that lacked a type |
| Backfill.BackfillIdempotent | backfill_job_types.py:66-72 | backfilling a job twice is backfilling it once, and a job that already has a type is untouched |
| Backfill.Backfilled | backfill_job_types.py:67-72 | a job as the fill loop leaves it: its `job_type` is truthy afterwards, a job that had one is unchanged, and `description` and `salary` are never changed |
| Backfill.MissingCount | backfill_job_types.py:62 | `missing_count`: the number of jobs whose `job_type` is missing or falsy; `BackfillJobTypes` proves the update counter equals it |
| Backfill.MissingType | backfill_job_types.py:62 | `not job.get('job_type')`: the member is absent, null or the empty string; the same test guards the update at line 68 |
| Backfill.DescriptionArg | backfill_job_types.py:69 | `job.get('description', '')`: the empty string only for a missing member, `None` for a JSON null |
| Backfill.SalaryArg | backfill_job_types.py:70 | `job.get('salary')`: the string, or `None` when missing or null |
| Backfill.Tally | backfill_job_types.py:77-80 | the distribution dictionary after the tally loop; characterised by `TallyCounts` and `TallyTotal` |
| Backfill.TypeKey | backfill_job_types.py:79 | `job.get('job_type', 'Unknown')`: `Unknown` for a missing member, `None` for a JSON null |
| Backfill.CountTypes | backfill_job_types.py:77-80 | the tally's keys are exactly the jobs' `job_type` values ("Unknown" when the member is missing), each count is the number of jobs with that value, and the counts add up to the number of jobs |
| Backfill.TallyCounts | backfill_job_types.py:77-80 | the tally function has exactly those keys and counts |
| Backfill.TallyTotal | backfill_job_types.py:77-80 | the counts of the tally add up to the number of jobs |
| Backfill.TotalBump | backfill_job_types.py:80 | incrementing one entry raises the sum of the counts by one |
| JobManagement.WithStatus | src/api/job_manager.py:71-84 | the status becomes the requested one whatever it was; `started_at` becomes the update time on the first RUNNING update and is never overwritten once set; `completed_at` becomes the update time exactly on a COMPLETED or FAILED update and is kept otherwise; each of `jobs_found`, `jobs_new`, `error`, `results` takes the keyword argument when one is passed and is kept otherwise; the id, request and creation time never change |
| JobManagement.NewScrapeJob | src/api/job_manager.py:19-32 | a new job: PENDING, created at the given time, no timestamps, counts or error, no results |
| JobManagement.JobIdFor | src/api/job_manager.py:45 | the job id `scrape_<stamp>_<hex[:8]>` |
| JobManagement.WebhookIdFor | src/api/job_manager.py:88 | the webhook id `webhook_<hex[:8]>` |
| JobManagement.ApplyKwargs | src/api/job_manager.py:83-84 | `setattr` of each passed keyword argument; `WithStatus` states its effect field by field |
| JobManagement.NoTransitionCheck | src/api/job_manager.py:71-77 | any status may follow any other: the new status is stored whatever the old one was, and a completed job can go back to pending |
| JobManagement.ApplyAllSnoc | src/api/job_manager.py:71-84 | a sequence of updates applies one at a time, in order |
| JobManagement.StartedAtSetOnce | src/api/job_manager.py:78-79 | `started_at` is the time of the first RUNNING update and is never overwritten once set |
| JobManagement.CompletedAtIsLastTerminal | src/api/job_manager.py:80-81 | `completed_at` is the time of the last COMPLETED or FAILED update |
| JobManagement.LastStatusWins | src/api/job_manager.py:76 | after a sequence of updates the status is the last one requested |
| JobManagement.JobIdsDistinguish | src/api/job_manager.py:45 | two job ids built from stamps of equal length are equal only when the stamps and the first eight hex digits agree |
| JobManagement.JobManager.constructor | src/api/job_manager.py:38-41 | a new manager has no jobs, no webhooks, no deliveries and no saves |
| JobManagement.JobManager.CreateJob | src/api/job_manager.py:43-51 | the id is `scrape_<stamp>_<first 8 hex digits>`, a PENDING job with no results is stored under it, and a new id is appended to the dictionary order |
| JobManagement.JobManager.GetJob | src/api/job_manager.py:53-56 | `jobs.get(id)`: the stored job, or `None` for an unknown id |
| JobManagement.JobManager.ListJobs | src/api/job_manager.py:58-69 | the result is exactly `Listing(Matching(status), limit)`, so equal `created_at` jobs keep dictionary order as Python's stable sort does; every listed job is registered and has the requested status; the list is newest first and as long as the Python slice `[:limit]` of the matching jobs; it is drawn from the matching jobs, holds all of them when the limit allows, and no job left out is newer than one listed |
| JobManagement.InsertNewestSorted | src/api/job_manager.py:67 | inserting into a newest-first list keeps it newest first |
| JobManagement.InsertNewestPermutes | src/api/job_manager.py:67 | insertion adds the job and loses nothing |
| JobManagement.SortNewestFirstSorted | src/api/job_manager.py:67 | the sort orders by `created_at`, newest first |
| JobManagement.SortNewestFirstPermutes | src/api/job_manager.py:67 | the sort is a permutation of its input |
| JobManagement.SortNewestFirstStable | src/api/job_manager.py:67 | the sort is stable: jobs created at the same time keep their dictionary order |
| JobManagement.ListingShape | src/api/job_manager.py:66-69 | the listing is newest first and has the length of the Python slice |
| JobManagement.ListingDrawn | src/api/job_manager.py:66-69 | the listing is a sub-multiset of the selected jobs, and all of them when the limit allows |
| JobManagement.ListingNewest | src/api/job_manager.py:66-69 | a job that is cut off is never newer than a listed one |
| JobManagement.NewestPrefix | src/api/job_manager.py:69 | a prefix of a newest-first list is newest first and holds the newest jobs |
| JobManagement.FilterStatusMembers | src/api/job_manager.py:63-64 | a job passes the status filter iff it is in the input and has that status |
| JobManagement.FilterStatus | src/api/job_manager.py:63-64 | the list comprehension keeping the jobs with the given status, in order; characterised by `FilterStatusMembers` |
| JobManagement.SortNewestFirst | src/api/job_manager.py:67 | `sort(key=created_at, reverse=True)` as a stable insertion sort; characterised by `SortNewestFirstSorted`, `SortNewestFirstPermutes` and `SortNewestFirstStable` |
| JobManagement.MatchingMembers | src/api/job_manager.py:60-64 | the jobs considered for listing are exactly the registered jobs with the requested status, or all of them when no status is given |
| JobManagement.JobManager.Matching | src/api/job_manager.py:60-64 | the registered jobs in dictionary order, kept only when their status is the requested one if a status is given; characterised by `MatchingMembers` |
| JobManagement.Listing | src/api/job_manager.py:66-69 | the matching jobs sorted newest first, stably, then cut with Python's `[:limit]`; characterised by `ListingShape`, `ListingDrawn` and `ListingNewest` |
| JobManagement.JobManager.UpdateJobStatus | src/api/job_manager.py:71-84 | an unknown id changes nothing; otherwise only that job changes, to `WithStatus` of its old value |
| JobManagement.JobManager.RegisterWebhook | src/api/job_manager.py:86-98 | the id is `webhook_<first 8 hex digits>`, and the registration holds the url, the events, the description and the time |
| JobManagement.JobManager.GetWebhooks | src/api/job_manager.py:100-103 | returns the registered webhooks |
| JobManagement.JobManager.DeleteWebhook | src/api/job_manager.py:105-111 | the result is true iff the id was registered; the id is gone afterwards, and nothing changes when it was absent |
| JobManagement.Without | src/api/job_manager.py:109 | removing a key from the dictionary order keeps every other key, once each; `WithoutKeepsOrder` shows they keep their order |
| JobManagement.WithoutKeepsOrder | src/api/job_manager.py:109 | `del` keeps the remaining keys in their insertion order: the new order is a subsequence of the old |
| JobManagement.ValuesInOrder | src/api/job_manager.py:61 | `list(d.values())` lists the value of each key in dictionary order |
| JobManagement.SliceTo | src/api/job_manager.py:69 | `s[:limit]` is a prefix of `s`; `SliceRules` gives Python's rules for the limit |
| JobManagement.SliceRules | src/api/job_manager.py:69 | a limit within the list takes that many items, a larger one takes all, a negative one within the list is counted from the end (`s[:-n] == s[:len(s)-n]`), and one below `-len(s)` takes none |
| JobManagement.JobManager.CollectWebhookTargets | src/api/job_manager.py:115-120 | the loop collects the urls of the subscribed webhooks, in registration order |
| JobManagement.TargetsMembers | src/api/job_manager.py:118-120 | a url is a target iff some registered webhook with that url subscribes to the event |
| JobManagement.TargetsCount | src/api/job_manager.py:118-120 | there is one target per subscribed registration |
| JobManagement.TargetsFrom | src/api/job_manager.py:118-120 | the url of each registration, in dictionary order, whose events contain the event; characterised by `TargetsMembers` and `TargetsCount` |
| JobManagement.WebhookSelection | src/api/job_manager.py:113-120 | for a manager: the targets are exactly the urls of the subscribed webhooks, one per subscription |
| JobManagement.JobManager.TriggerWebhooks | src/api/job_manager.py:113-133 | one POST per target, in order, each carrying the event, the job id and the data |
| JobManagement.Notify | src/api/job_manager.py:123-133 | one delivery per url: the i-th POST goes to the i-th url with the event, the job id and the data |
| JobManagement.JobManager.Attempt | src/api/job_manager.py:145-203 | the run body computes `Verdict(request, env)` (config, overrides, scrape, storage, dedup, save) and calls `save` only as `SaveCalls` says |
| JobManagement.JobManager.StoreBatch | src/api/job_manager.py:185-203 | storage construction, dedup and save give `StoreVerdict`, and `save` is called only with a non-empty batch |
| JobManagement.JobManager.FailJob | src/api/job_manager.py:231-240 | the job becomes FAILED with the exception's message, and every webhook subscribed to `scrape.failed` gets an error report |
| JobManagement.JobManager.CompleteJob | src/api/job_manager.py:206-229 | the job becomes COMPLETED with `jobs_found`, the number of new jobs and the new jobs; then come the request's own POST and the `scrape.completed` notifications |
| JobManagement.JobManager.AnnounceCompletion | src/api/job_manager.py:214-229 | the POSTs after a completed run are exactly `Posts(Scraped(found, newJobs), …)`: the request's own POST, if any, then one `scrape.completed` notification per subscribed registration, all with the same summary |
| JobManagement.JobManager.PostToRequestWebhook | src/api/job_manager.py:222-226 | the request's own webhook gets the bare summary when it has one |
| JobManagement.JobManager.Conclude | src/api/job_manager.py:174-240 | the terminal update and the POSTs of a run follow from its verdict |
| JobManagement.JobManager.Run | src/api/job_manager.py:141-240 | a run leaves its job at `FinalJob`, appends `Posts` to the deliveries and `SaveCalls` to the saves, and touches no other job |
| JobManagement.JobManager.RunScrapeJob | src/api/job_manager.py:135-240 | an unknown id changes nothing; otherwise the job, the deliveries and the saves are as `Run` states |
| JobManagement.HeadlessOverride | src/api/job_manager.py:150-155 | a request that sends nothing runs headless; `headless` and `max_pages` override the configuration unless they are `None`; applying an override to a configuration without a `scraper` section raises `KeyError('scraper')`, and a request with no override runs the configuration as loaded |
| JobManagement.ConfigSource | src/api/job_manager.py:146-147 | the configuration is loaded from the request's path when it is truthy, else from the default |
| JobManagement.Effective | src/api/job_manager.py:149-155 | the overrides applied to the loaded configuration, or the `KeyError`; its contract is `HeadlessOverride` |
| JobManagement.Verdict | src/api/job_manager.py:141-203 | how the `try` body ends: an exception from loading, overriding or scraping is a failure with its message, an empty scrape ends early, and a non-empty batch goes to `StoreVerdict`; characterised by `EmptyScrapeOutcome`, `ScrapedOutcome`, `SaveOnlyNonEmpty` and `RepeatedUrlExample` |
| JobManagement.StoreVerdict | src/api/job_manager.py:185-203 | storage construction, key-field lookup, the two dedup passes and the save of a non-empty batch, each failure with its message |
| JobManagement.KeyFieldName | src/api/job_manager.py:194 | the configured `deduplication.key_field`, or `job_url` when it is unset |
| JobManagement.Concluded | src/api/job_manager.py:206-212 | the terminal update of a run: FAILED with the message for an exception (lines 233-237), COMPLETED with the counts and results otherwise, 0/0/[] for an empty scrape (lines 175-181) |
| JobManagement.FinalJob | src/api/job_manager.py:143 | the job after a run: the RUNNING update at the start time, then the terminal update of `Concluded` at the end time |
| JobManagement.CompletionData | src/api/job_manager.py:215-219 | the completion payload: `jobs_found`, the number of new jobs and the first ten of them |
| JobManagement.OwnPost | src/api/job_manager.py:222-226 | one POST of the bare payload to the request's `webhook_url` when it has one, none otherwise |
| JobManagement.Posts | src/api/job_manager.py:214-240 | the POSTs of a run: `scrape.failed` notifications for a failure, none for an empty scrape, the own POST and then `scrape.completed` notifications for a success; characterised by `FailureOutcome` and `CompletionPosts` |
| JobManagement.SaveCalls | src/api/job_manager.py:202-203 | the batches passed to `save`: the new jobs when there are any, the batch whose save raised, or none |
| JobManagement.RunReachesTerminalState | src/api/job_manager.py:141-240 | every run ends COMPLETED or FAILED, FAILED exactly when an exception was raised; `started_at` is set by the run unless already set, and `completed_at` is the end time |
| JobManagement.EmptyScrapeOutcome | src/api/job_manager.py:174-182 | an empty scrape completes with 0 found, 0 new and no results, sends no POST and saves nothing |
| JobManagement.ScrapedOutcome | src/api/job_manager.py:185-212 | with no failure, `jobs_found` is the size of the raw batch, `jobs_new` and `results` are the deduplicated jobs the store lacks, and `save` is called iff there is one |
| JobManagement.RepeatedUrlExample | src/api/job_manager.py:190-199 | with the default `job_url` key, a scrape of three records where the third repeats the first's url reports 3 found and keeps the first two |
| JobManagement.FailureOutcome | src/api/job_manager.py:231-240 | a failed run stores the message as `error`; its POSTs go, in order, to exactly the `scrape.failed` subscribers' urls, each with the error report; the request's own webhook is not called |
| JobManagement.SaveOnlyNonEmpty | src/api/job_manager.py:202-203 | every batch saved is non-empty and holds only records the store lacked |
| JobManagement.PayloadBounded | src/api/job_manager.py:215-219 | each completion POST carries the counts stored on the job and its first `min(10, n)` results |
| JobManagement.CompletionPosts | src/api/job_manager.py:222-229 | after a completed run, the request's own webhook gets the bare summary first; then the i-th `scrape.completed` subscriber's url gets the i-th notification, with the event, the job id and the summary |

## Left out

- Concurrency is not modelled: the lock, `asyncio`, the thread-pool executor and the background task. Every method runs to completion alone.
- The clock, `uuid4` and `strftime` are not modelled. Their values are parameters (`now`, `t1`, `t2`, `stamp`, `hex`).
- HTTP is not modelled. `requests.post` becomes an entry in the `deliveries` log. Timeouts and connection errors are not modelled, because the source swallows them. The payload's `timestamp` member, `HttpUrl` normalisation and `job.to_dict()` serialisation are not modelled either.
- Logging and printing are left out, because they affect no state.
- The configuration, the logger setup, the scraper and the storage are collaborators whose code is not part of this model: `Config`, `setup_logger`, `SeekScraper`, `JSONStorage` and its `exists`/`save`, and `retention_days`. They become the `Collaborators` parameter, which holds the configuration loader, the logger setup and scraper together as one function of the effective settings, a storage-construction error, the store's membership test and a save error. An exception from the loader, the logger setup, the scraper, the storage construction or `save` becomes a failure with its message. The `KeyError` raised by an override on a configuration without a `scraper` section is modelled in `Effective`.
- `Deduplication.Unseen`: the store's membership test `storage.exists` is a total function here. An exception it raises is not modelled; in the source it would fail the run through the same `except` branch as the other collaborators.
- `ScrapeJob` objects are stored as values. The source hands out live objects that later updates change, and that aliasing is not modelled.
- `JobManagement.WithStatus`: the model handles only the four keyword arguments `update_job_status` is called with (`jobs_found`, `jobs_new`, `error`, `results`). `setattr` of any other attribute is not modelled.
- `Records.FieldNamed`: `getattr` also finds methods and other non-field attributes of a job. A key field naming one of those is not modelled, and the model raises AttributeError for it.
- The order of a `save` call relative to the POSTs is not modelled, because `saveCalls` and `deliveries` are separate logs.
- `JobManagement.JobManager.GetWebhooks` returns the map itself. The shallow copy is a value in the model.
- `Backfill.BackfillJobTypes`: file reading, JSON parsing and writing, and the sorted printing of the distribution are not modelled. Only the `job_type`, `description` and `salary` members of each job are modelled. A non-string JSON value in them is not modelled; for `salary` or `description`, the source would raise on `.lower()`.
- `Backfill.InferencePriority`: `str.lower()` is modelled for ASCII letters only. Unicode case mapping is not modelled.
- `generate_api_key` and the `__main__` block of the auth module are not modelled: they are random key generation and printing. `load_dotenv` is not modelled either: the value of `API_KEYS` is a parameter.
- The FastAPI plumbing around `verify_api_key` is not modelled: `Security`, `APIKeyHeader` and raising the `HTTPException`. The exception is returned as a `Verdict` value.
