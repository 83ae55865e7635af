# Project Aura job board — a Dafny model

Project Aura is a job board. An aggregator pulls remote job listings from three providers: RemoteOK, Remotive and Adzuna. It classifies each listing and scores it. It then stores every listing whose URL is new, and deactivates listings older than 60 days. Three read-only HTTP handlers page through the stored listings:

- the global remote dashboard;
- Australia-only listings;
- the Australian Impact Hub.

A shared utility, `handleApiError`, maps a thrown error to a status-500 reply by looking for keys in its message. None of the handlers calls it. The global and Impact Hub handlers copy its cascade into their own `catch` blocks, and the Australia-only handler answers every failure with one fixed message.

This project models that core in Dafny and proves its properties:

- `text.dfy`: module `Text`. ASCII lower-casing, substring search (`includes` / `contains`), `join`, `slice(0, n)` and decimal rendering of integers.
- `types.dfy`: module `Types`. The listing record, its three enumerations and the aggregator's `RawJob`.
- `classifier.dfy`: module `Classifier`.
  - The pure classifiers `categorizeJob`, `parseJobType` and `calculateVibeScore`.
  - The location-type rule.
  - The record passed to `create`.
- `fetchers.dfy`: module `Fetchers`. The three providers' post-fetch mapping (filter, map, `slice(0, 20)`) over parsed JSON records.
- `aggregator.dfy`: module `Aggregator`.
  - The table is a `JobStore` class whose `listings` sequence the methods update in place.
  - The `for` loop with its `inserted` / `skipped` counters is a method. So is the bulk deactivation.
  - Each method is proved against a specification function (`Ingested`, `Deactivated`, `StaleCount`).
  - Lemmas about those functions state what a run guarantees.
- `api_errors.dfy`: module `ApiErrors`. `handleApiError` as a function returning status, error text and optional details.
- `query.dfy`: module `Query`. The `findMany` / `count` pair over one filter, ordering, skip/take and the page count, response shapes, and the error cascade written out in two handlers.
- `global_jobs.dfy`, `au_exclusive.dfy` and `au_impact.dfy`: modules `GlobalJobs`, `AuExclusive` and `AuImpact`. Each handler is a function of four things:
  - the request method;
  - the parsed query parameters;
  - the database, either reachable with its rows or throwing a value;
  - for two of the handlers, `NODE_ENV === 'development'`.
- `scenarios.dfy`: modules `MessageScenarios`, `WordScenarios` and `Scenarios`. Concrete cases from the handler's unit tests and worked examples.

Conventions:

- Time is an integer number of milliseconds. Each operation receives the wall-clock time as a parameter `now`.
- An invalid JavaScript `Date` is `None`.
- A store call that throws inside the insert loop is modelled as a set `failing` of loop positions. The source catches and logs such a throw.

## Model

| member | source | states |
|---|---|---|
| Classifier.Categorize | src/lib/jobAggregator.ts:121-146 | `categorizeJob`: a category other than OTHER is chosen only when one of the twelve keywords occurs in the combined text |
| Classifier.CategorizeIsFirstMatch | src/lib/jobAggregator.ts:121-146 | The if-chain equals first-match-wins evaluation of the six-rule table, applied to the lower-cased `title + " " + tags.join(" ")` |
| Classifier.FirstRuleWins | src/lib/jobAggregator.ts:121-130 | Any text with "ml", "machine learning" or "ai engineer" is AI/ML engineering, whatever later keywords (e.g. "prompt", "llm") it also holds |
| Classifier.CategorizeOtherIff | src/lib/jobAggregator.ts:121-146 | The category is OTHER exactly when none of the twelve keywords occurs |
| Classifier.HtmlIsAiMl | src/lib/jobAggregator.ts:122-127 | Matching is by substring, so any title containing "html" is AI/ML engineering |
| Classifier.ParseJobType | src/lib/jobAggregator.ts:151-158 | A missing or empty hint gives FULL_TIME. PART_TIME iff the hint contains "part". CONTRACT iff no "part" and "contract" or "freelance". Never FREELANCE, TENDER or GRANT |
| Classifier.CategoryTextIsScoreText | src/lib/jobAggregator.ts:123-124 | The category text (lower-case each part, then join) equals the score text (join, then lower-case), jobAggregator.ts:170 |
| Classifier.VibeScore | src/lib/jobAggregator.ts:163-183 | The score is 50 + 20·remote + 15·AI + 10·salary + 5·(posted under 7 days ago). It lies in [50, 100], so the clamp never changes it |
| Classifier.FirstRuleEarnsAiBonus | src/lib/jobAggregator.ts:126-127 | A job the first category rule selects always earns the +15 AI bonus of jobAggregator.ts:171-172 |
| Classifier.LocationTypeOf | src/lib/jobAggregator.ts:225-227 | REMOTE_GLOBAL iff the lower-cased location contains "remote", ONSITE otherwise, never HYBRID |
| Classifier.PostedAtOrNow | src/lib/jobAggregator.ts:237-239 | A valid raw date is kept; an invalid or missing one becomes the insertion time |
| Classifier.NewListing | src/lib/jobAggregator.ts:219-241 | Title and company are the first min(length, 200) characters, description the first min(length, 5000), tags the first min(count, 10). Location and URL are copied. Location type, job type, category and score are the classifiers' results for the raw job; score in [50, 100]. Flags active, not AU-only, not Impact Hub. Source "Aggregator". `postedAt` is the valid raw date or the run time |
| Fetchers.DateOrNow | src/lib/jobAggregator.ts:71 | A falsy date string gives the run time, a parsable one its time, an unparsable one an Invalid Date |
| Fetchers.RemoteOkSalary | src/lib/jobAggregator.ts:42-44 | A salary string exists iff both bounds are non-zero numbers; it starts with "$" and holds "-$" |
| Fetchers.FromRemoteOk | src/lib/jobAggregator.ts:33-45 | Title and company are the record's. URL is the RemoteOK prefix followed by the slug ("undefined" when missing). Description and location are the record's when truthy, else "<position> at <company>" and "Remote (Global)". Tags are the record's or `[]`. `postedAt` is `date · 1000` when `date` is truthy, else the run time. Hint FULL_TIME. Salary as `RemoteOkSalary` |
| Fetchers.RemoteOkMapped | src/lib/jobAggregator.ts:31-45 | Every output job is named, full time and under the RemoteOK job prefix, and there are no more jobs than records |
| Fetchers.RemoteOkMappedOne | src/lib/jobAggregator.ts:31-45 | One record yields its mapped job when it has position and company, and nothing otherwise |
| Fetchers.RemoteOkMappedConcat | src/lib/jobAggregator.ts:31-45 | The output for a concatenation is the output for each part in order. With the one-record case this fixes order and multiplicity |
| Fetchers.RemoteOkMappedMembers | src/lib/jobAggregator.ts:31-45 | Every output job maps a record that has position and company, and every such record's job is in the output |
| Fetchers.RemoteOkJobs | src/lib/jobAggregator.ts:23-51 | The leading metadata element is dropped. The result is exactly the first 20 mapped records. All named and full time. Empty when the request fails |
| Fetchers.FromRemotive | src/lib/jobAggregator.ts:64-74 | Title, company, URL and salary are the record's. Description falls back to the title and location to "Remote (Global)". Tags are the record's, or `[category]` when missing. Hint is `job_type`, or FULL_TIME when missing or empty. Date as `DateOrNow` |
| Fetchers.RemotiveMapped | src/lib/jobAggregator.ts:62-74 | Every output job is named and has a job-type hint, and there are no more jobs than records |
| Fetchers.RemotiveMappedOne | src/lib/jobAggregator.ts:62-74 | One record yields its mapped job when it has title and company name, and nothing otherwise |
| Fetchers.RemotiveMappedConcat | src/lib/jobAggregator.ts:62-74 | The output for a concatenation is the output for each part in order |
| Fetchers.RemotiveMappedMembers | src/lib/jobAggregator.ts:62-74 | Every output job maps a record with title and company name, and every such record's job is in the output |
| Fetchers.RemotiveJobs | src/lib/jobAggregator.ts:57-80 | The result is exactly the first 20 mapped records; empty when the request fails |
| Fetchers.FromAdzuna | src/lib/jobAggregator.ts:102-111 | Title, description and URL are the record's; company and location are the `display_name`s of its nested objects. Date as `DateOrNow`. Fixed tags ["AI", "ML"], no salary, hint `contract_type` or FULL_TIME |
| Fetchers.AdzunaMapped | src/lib/jobAggregator.ts:102-111 | Every record is mapped, position by position |
| Fetchers.AdzunaJobs | src/lib/jobAggregator.ts:85-116 | Empty without credentials, on failure, or when any record lacks its company or location object (the map throws before the slice). Otherwise the first 20 mapped records |
| Fetchers.AdzunaJobsAreAiMl | src/lib/jobAggregator.ts:108 | Every Adzuna job is categorized AI/ML engineering and earns the AI bonus, because its tags contain "ML" |
| Aggregator.Admit | src/lib/jobAggregator.ts:207-245 | One iteration. A throwing store call changes nothing. A known URL leaves the rows unchanged (no field is refreshed) and adds one to `skipped` only. A new URL appends the new record and adds one to `inserted` only |
| Aggregator.Ingested | src/lib/jobAggregator.ts:203-246 | The loop as `Admit` applied to each job in order. It has no contract of its own; the lemmas below and `IngestJobs` state its properties |
| Aggregator.FailuresBefore | src/lib/jobAggregator.ts:243-245 | The number of positions below `n` whose store call throws, i.e. the size of that set |
| Aggregator.IngestedCounts | src/lib/jobAggregator.ts:203-246 | inserted + skipped = fetched − failed ≤ fetched, and the store grows by exactly `inserted` rows |
| Aggregator.IngestedAppends | src/lib/jobAggregator.ts:203-246 | The loop only appends, and every appended row is an aggregator-created record |
| Aggregator.IngestedCoversUrls | src/lib/jobAggregator.ts:209-232 | After the loop, every job that did not fail has its URL stored, and no stored URL is lost |
| Aggregator.IngestedFreshUrls | src/lib/jobAggregator.ts:209-216 | An appended row's URL differs from every earlier row's, so a URL appearing twice in one run is inserted at most once |
| Aggregator.IngestedKeepsUniqueUrls | src/lib/jobAggregator.ts:203-246 | A store with distinct URLs keeps them distinct across a run |
| Aggregator.KnownUrlsAreSkipped | src/lib/jobAggregator.ts:213-216 | When every URL is already stored and nothing fails, every job is skipped and the store is unchanged |
| Aggregator.NewUrlsAreInserted | src/lib/jobAggregator.ts:218-242 | With new, pairwise distinct URLs and no failures, every job is inserted in order and none is skipped |
| Aggregator.SecondRunSkipsAll | src/lib/jobAggregator.ts:203-246 | Running the same provider output a second time inserts nothing and skips every job |
| Aggregator.Deactivated | src/lib/jobAggregator.ts:250-260 | Only `isActive` changes, and only on rows that are active and posted before the cutoff; every other row and field is unchanged |
| Aggregator.StaleCount | src/lib/jobAggregator.ts:254-262 | `deactivated.count`, the number of active rows posted before the cutoff, at most the number of rows |
| Aggregator.StaleCountCountsChangedRows | src/lib/jobAggregator.ts:254-262 | The count equals the number of rows the deactivation actually changes |
| Aggregator.StaleRowsAreChangedRows | src/lib/jobAggregator.ts:254-260 | The rows the deactivation changes are exactly the active rows posted before the cutoff |
| Aggregator.StaleCountCountsStaleRows | src/lib/jobAggregator.ts:254-262 | The count equals the size of the set of stale rows |
| Aggregator.NoStaleAfterDeactivation | src/lib/jobAggregator.ts:254-260 | After deactivation no active row older than the cutoff remains |
| Aggregator.DeactivationIdempotent | src/lib/jobAggregator.ts:254-260 | Deactivating twice equals deactivating once, and the second pass counts zero rows |
| Aggregator.JobStore.constructor | src/lib/jobAggregator.ts:5 | The store starts with the given rows |
| Aggregator.JobStore.FindFirstByUrl | src/lib/jobAggregator.ts:209-211 | A row is found iff some row has the URL, and it is the first such row |
| Aggregator.JobStore.Create | src/lib/jobAggregator.ts:219-241 | `create` appends exactly one row |
| Aggregator.JobStore.IngestJobs | src/lib/jobAggregator.ts:203-246 | The loop's rows and counters equal the specification `Ingested` |
| Aggregator.JobStore.DeactivateOlderThan | src/lib/jobAggregator.ts:250-260 | The new rows are `Deactivated` of the old ones, and the count is the number of stale rows |
| Aggregator.AggregateJobs | src/lib/jobAggregator.ts:188-271 | A run concatenates RemoteOK, Remotive and Adzuna output in that order, ingests it, then deactivates rows older than 60 days, and ends with fetched, inserted, skipped and deactivated. When `updateMany` throws, the run ends re-throwing, with the inserted rows kept and nothing deactivated |
| ApiErrors.HandleApiError | src/lib/apiErrorHandler.ts:13-56 | Status always 500. The "DATABASE_URL", "PrismaClient", "connect"/"ECONNREFUSED" checks run in that order, first match wins, each as an iff. Details present iff development, and equal to the message in the generic case. A non-Error counts as "Unknown error" |
| ApiErrors.DisconnectIsConnectionError | src/lib/apiErrorHandler.ts:43-50 | A message containing "disconnect", without the earlier keys, is a connection error |
| Query.Skip | src/pages/api/jobs/global.ts:24 | `(page − 1) · limit` is non-negative and ends exactly `limit` rows before `page · limit` |
| Query.PageCount | src/pages/api/jobs/global.ts:66 | `ceil(total / limit)`: the pages hold all rows, and one page fewer would not |
| Query.Where | src/pages/api/jobs/global.ts:56-64 | A row is in the result iff it is in the store and satisfies the filter; every matching row keeps its multiplicity |
| Query.InsertByPostedDesc | src/pages/api/jobs/global.ts:61 | Inserting into a newest-first sequence keeps it newest first and adds exactly the inserted row |
| Query.SortByPostedDesc | src/pages/api/jobs/global.ts:61 | The result is newest first and a permutation of its input |
| Query.Window | src/pages/api/jobs/global.ts:59-60 | `skip` / `take` returns at most `take` rows, starting at position `skip` |
| Query.FindMany | src/pages/api/jobs/global.ts:57-62 | `findMany`: at most `take` rows, each stored and satisfying the filter, newest first |
| Query.WhereSnoc | src/pages/api/jobs/global.ts:56-64 | Filtering a store with one more row at the end adds that row exactly when it matches |
| Query.WhereCountsMatchingRows | src/pages/api/jobs/global.ts:56-64 | The filter keeps exactly one row for each position of the store whose row matches |
| Query.Count | src/pages/api/jobs/global.ts:63 | `count`: the number of positions of the store whose row satisfies the filter. Hence at most the number of rows, and zero exactly when no stored row matches |
| Query.RowOnItsPage | src/pages/api/jobs/global.ts:22-24 | Row `k` of the ordered result lies on page `k / limit + 1`, which is within the page count |
| Query.WindowRowsMatch | src/pages/api/jobs/global.ts:56-64 | Every row of a window of the ordered matches is in the store and satisfies the filter |
| Query.WindowSorted | src/pages/api/jobs/global.ts:61 | Every page is newest first |
| Query.CountCountsMatches | src/pages/api/jobs/global.ts:63 | A matching row stored several times is counted at least that many times |
| Query.Paginate | src/pages/api/jobs/global.ts:56-66 | The page holds exactly the rows at positions `(page − 1) · limit` to `page · limit − 1` of all matching rows ordered newest first. They match and are newest first, at most `limit` of them and no more than `total`. `total` is the number of stored rows that satisfy the same filter, and `pages = ceil(total / limit)` |
| Query.EarlierWindowIsNewer | src/pages/api/jobs/global.ts:59-61 | A window of a newest-first sequence that ends before another begins holds only rows at least as new as the other's |
| Query.EarlierPagesAreNewer | src/pages/api/jobs/global.ts:56-62 | The order is global across pages: every row of a page is at least as new as every row of any later page |
| Query.EveryMatchOnSomePage | src/pages/api/jobs/global.ts:56-66 | Every matching row appears on some page between 1 and `pages` |
| Query.DatabaseErrorResponse | src/pages/api/jobs/global.ts:81-109 | The catch block written out in the handler answers exactly as `handleApiError` does |
| GlobalJobs.Matches | src/pages/api/jobs/global.ts:27-54 | The `where` filter: only active remote-global rows match, and with no filters every such row does |
| GlobalJobs.Handle | src/pages/api/jobs/global.ts:5-111 | Non-GET gives 405 "Method not allowed". A database failure gives `handleApiError`'s reply. Otherwise 200: the jobs are exactly the window at `(page − 1) · limit` of `limit` rows of the matching rows ordered newest first; each is active, remote-global and meets every given filter; page echoed, `pages = ceil(total / limit)` |
| GlobalJobs.PagesReachEveryMatch | src/pages/api/jobs/global.ts:56-73 | Requesting pages 1 .. pages returns every matching listing |
| GlobalJobs.AggregatedRemoteRowsListed | src/pages/api/jobs/global.ts:27-42 | An aggregator-created remote row is listed with no filters and with any minimum score up to 50 |
| AuExclusive.Matches | src/pages/api/jobs/au-exclusive.ts:27-54 | The `where` filter: only active Australia-only rows match, and with no filters every such row does |
| AuExclusive.Handle | src/pages/api/jobs/au-exclusive.ts:5-78 | Non-GET gives 405. Any failure gives 500 "Internal server error" without details. Otherwise 200: the jobs are exactly the window at `(page − 1) · limit` of the matching rows ordered newest first; each is active, AU-only and meets every given filter |
| AuExclusive.FailureRevealsNothing | src/pages/api/jobs/au-exclusive.ts:74-77 | The failure reply is the same for every thrown value, and unlike `handleApiError` it never carries details |
| AuExclusive.AggregatedRowsNeverListed | src/pages/api/jobs/au-exclusive.ts:27-30 | No aggregator-created row is ever listed (jobAggregator.ts:235) |
| AuExclusive.PagesReachEveryMatch | src/pages/api/jobs/au-exclusive.ts:56-73 | Requesting pages 1 .. pages returns every matching listing |
| AuImpact.RequiredTag | src/pages/api/jobs/au-impact.ts:40-46 | A tag filter exists iff `industry` or `aiFocus` is given; `aiFocus` wins when both are |
| AuImpact.Matches | src/pages/api/jobs/au-impact.ts:27-46 | The `where` filter: only active Impact Hub rows match, and with no filters every such row does |
| AuImpact.Handle | src/pages/api/jobs/au-impact.ts:5-103 | Non-GET gives 405. A failure gives `handleApiError`'s reply. Otherwise 200 under `opportunities`: exactly the window at `(page − 1) · limit` of the matching rows ordered newest first; each is active, Impact Hub and meets every given filter |
| AuImpact.AiFocusOverridesIndustry | src/pages/api/jobs/au-impact.ts:40-46 | With `aiFocus` given, the `industry` parameter has no effect on which rows match |
| AuImpact.AggregatedRowsNeverListed | src/pages/api/jobs/au-impact.ts:27-30 | No aggregator-created row is ever listed (jobAggregator.ts:236) |
| AuImpact.PagesReachEveryMatch | src/pages/api/jobs/au-impact.ts:48-65 | Requesting pages 1 .. pages returns every matching opportunity |
| MessageScenarios.MissingDatabaseUrlMessage | src/__tests__/api/jobs-global.test.ts:196-208 | "Environment variable not found: DATABASE_URL" is a configuration error |
| MessageScenarios.PrismaClientMessage | src/__tests__/api/jobs-global.test.ts:210-222 | "PrismaClient initialization failed" is a client error |
| MessageScenarios.RefusedConnectionMessage | src/__tests__/api/jobs-global.test.ts:224-236 | "ECONNREFUSED" is a connection error |
| MessageScenarios.UnknownDatabaseErrorMessage | src/__tests__/api/jobs-global.test.ts:238-250 | "Unknown database error" is an internal error |
| MessageScenarios.NonErrorIsInternal | src/lib/apiErrorHandler.ts:22 | A non-Error value is an internal error whose development details read "Unknown error" |
| Scenarios.PostIsRejected | src/__tests__/api/jobs-global.test.ts:62-69 | A POST is answered 405 |
| Scenarios.OneListingNoFilters | src/__tests__/api/jobs-global.test.ts:71-107 | One active remote listing with no filters gives `{jobs: [it], total: 1, page: 1, pages: 1}` |
| Scenarios.SecondPageOfTen | src/__tests__/api/jobs-global.test.ts:172-194 | `page=2&limit=10` over 25 matching rows returns the 11th to 20th newest matching rows (skip 10, take 10), ten of them, and reports page 2 of 3 |
| Scenarios.FullTimeHintIsFullTime | src/lib/jobAggregator.ts:41 | RemoteOK's fixed "FULL_TIME" hint is stored as FULL_TIME |
| Scenarios.SeniorAiMlEngineer | src/lib/jobAggregator.ts:163-183 | "Senior AI/ML Engineer", remote, salaried and just posted: score 100, AI/ML engineering, remote-global |
| Scenarios.UndatedJobGetsRunTime | src/lib/jobAggregator.ts:237-239 | A job without a usable date is stored with the time of the run |
| Scenarios.SixtyOneDaysOldIsDeactivated | src/lib/jobAggregator.ts:250-260 | An active listing posted 61 days ago is deactivated and counted |

## Left out

- Network, JSON decoding and environment reads are left out: `fetch` and `response.json()` in the fetchers, `process.env` in the fetchers and handlers, console logging and `prisma.$disconnect`. Each fetcher receives its parsed response (or a failure) as a parameter. The Adzuna credential check is a boolean parameter. `NODE_ENV === 'development'` is a parameter.
- Concurrency is left out. `Promise.all` over the fetchers becomes concatenation in the listed order. `Promise.all` over `findMany` / `count` becomes two reads of the same rows.
- Calendar time is left out. `Date.now()` and `new Date()` are one `now` per run. The source takes a fresh time for each fallback date and for the 60-day cutoff.
- `setDate(getDate() - 60)` is modelled as exactly 60 · 86 400 000 ms. A daylight-saving change inside the window can shift the real cutoff by an hour.
- Date parsing is left out. `new Date(string)` is the `DateText` outcome, which is either a time or unparsable.
- RemoteOK's `job.date * 1000` is modelled for a numeric `date` only.
- `daysSincePosted < 7` is evaluated on integers. For whole milliseconds it is equivalent to `now − postedAt < 7 days`.
- Only ASCII letters are lower-cased. `toLowerCase` and Prisma's `mode: 'insensitive'` fold all of Unicode.
- Numbers are rendered as integers. `salary_min` and `salary_max` may be fractional in the source.
- The record generated columns `id`, `createdAt` and `updatedAt` are not modelled.
- Prisma's rejection of unknown enum strings for `category`, `locationType` and `type` is left out. The handlers receive already-typed values.
- A `gte` on a null `vibeScore` is treated as not matching.
- GlobalJobs.Handle: requires a page and a limit of at least 1. `parseInt` yielding NaN, a page below 1 (negative `skip`) and `limit = 0` (division by zero in `Math.ceil(total / 0)`) are not guarded by the source, and they are not modelled.
- AuExclusive.Handle: requires a page and a limit of at least 1. `parseInt` yielding NaN, a page below 1 (negative `skip`) and `limit = 0` (division by zero in `Math.ceil(total / 0)`) are not guarded by the source, and they are not modelled.
- AuImpact.Handle: requires a page and a limit of at least 1. `parseInt` yielding NaN, a page below 1 (negative `skip`) and `limit = 0` (division by zero in `Math.ceil(total / 0)`) are not guarded by the source, and they are not modelled.
- Query.SortByPostedDesc: rows with equal `postedAt` keep store order. The database leaves their order unspecified, so the model fixes one of the orders the source allows.
- Fetchers.RemotiveJobs: Remotive's `url` and `category` are taken as present strings. An undefined `url` would make `findFirst` match any row, and that case is not modelled.
- Fetchers.AdzunaJobs: `company.display_name` and `location.display_name` are taken as present whenever their objects are. `redirect_url` is taken as a present string; an undefined one would make `findFirst` match any row, as for Remotive, and that case is not modelled.
- Text.Take: JavaScript strings are UTF-16, so `slice(0, 200)` and `slice(0, 5000)` count code units and can cut a surrogate pair in half. The model counts characters, so a title outside the Basic Multilingual Plane keeps more characters than the source stores.
- GlobalJobs.Handle: `vibeScore` is the integer `parseInt` returned. A non-numeric value such as `?vibeScore=abc` makes `parseInt` return NaN, and the source sends `gte: NaN` to Prisma; that case is not modelled.
- A failing store call in the insert loop is modelled by its position in `failing`. Which Prisma errors occur is outside the model.
- The UI pages, the seed script, the end-to-end tests, the debugging script, the health and aggregate endpoints and the Prisma client singleton are not part of this model.
