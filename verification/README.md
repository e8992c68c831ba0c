# Job Scout core, modelled in Dafny

This project models the core of Job Scout AI, a job-hunting assistant. The
parts it models are:

- **the response cache** (`CacheManager`): one JSON file per key, named by
  the key's md5 digest, with a 24-hour expiry;
- **the application store** (`ApplicationDatabase`): four SQLite tables
  with their UNIQUE constraints. The searches use its `job_seen` and
  `add_discovered_job` as "Hunter's memory": a job URL that was already
  seen is never returned again;
- **the AI helpers** (`JobIntelligence`): `scout_jobs`, `analyze_match`
  and `extract_search_profile`. Each reads the cache first, then calls
  Perplexity or Gemini, pulls JSON out of the reply and caches only a
  reply that decoded;
- **the JSearch API client** (`JobAPISearch.search_jobs`): walks the
  result pages, stops early on a failure or a 429, and filters out URLs
  it has seen. Also modelled: the salary formatter and the multi-title,
  multi-location search;
- **the scrapers and the aggregator**: LinkedIn (one browser page),
  Indeed (three attempts with back-off and fallback HTML selectors),
  Glassdoor and ZipRecruiter (both always empty). Then
  `JobAggregator.search_all_platforms` and the module-level `search_jobs`,
  which keeps the last job per URL;
- **the settings** (`job_config.py`): which platforms are enabled, and
  the auto-detection of the AI service.

### How the outside world is represented

- The file system, the SQLite file, the clock and the environment become
  values: a map from digest to file contents, sequences of rows, a `now`
  argument, and a map from variable name to value.
- Each remote service is replaced by what it answers, given as an
  argument:
  - an HTTP reply or the exception raised on the way;
  - the loaded browser page;
  - the decoded HTML cards.
- `json.loads` and md5 are function parameters.
- Classes whose fields the source updates become Dafny classes. The store
  keeps its tables in `seq` fields, and the cache keeps its directory in a
  `map` field.
- Loops become methods with invariants. Each method is proved against a
  specification function, and the lemmas state the properties of those
  functions.

### Modules

| module | file |
|---|---|
| `Wrappers` | wrappers.dfy |
| `JsonValue` | json_value.dfy |
| `Text` | text.dfy |
| `Cache` | cache.dfy |
| `Database` | database.dfy |
| `Intelligence` | intelligence.dfy |
| `Postings` | postings.dfy |
| `ApiSearch` | api_search.dfy |
| `Scrapers` | scrapers.dfy |
| `Config` | config.dfy |

`Text` holds the Python string operations the core relies on:
- `strip`, `find` and `split(...)[k]`;
- `replace`;
- `format(n, ",")`.

`Postings` holds the URL deduplication that several operations share.

## Model

| member | source | states |
|---|---|---|
| Cache.NewEntry | cache_manager.py:42-46 | the stored key metadata is the key's prefix of at most 100 characters, and the whole key when it is that short |
| Cache.CacheManager.constructor | cache_manager.py:10-13 | a cache over an existing directory keeps its files and the given expiry |
| Cache.CacheManager.Get | cache_manager.py:20-36 | the read equals `Lookup`; a returned value comes from a readable file under the key's digest, is at most `expiry` seconds old, and is not null |
| Cache.CacheManager.Set | cache_manager.py:38-50 | the directory becomes `Store`: a full record under the digest when written, unchanged when `open` fails, an unreadable file when the dump fails after truncation |
| Cache.GetAfterSet | cache_manager.py:20-50 | a value just written is read back (null as none) while it is at most `expiry` seconds old |
| Cache.ExpiryBoundary | cache_manager.py:31 | an entry exactly `expiry` seconds old is still returned (the test is strict) |
| Cache.GetAfterExpiry | cache_manager.py:31-32 | an entry older than the expiry reads as none although its file remains |
| Cache.MissingTimestampIsZero | cache_manager.py:31 | a record without a timestamp counts as written at time 0 |
| Cache.GetNeverSet | cache_manager.py:23-24 | a key with no file under its digest reads as none |
| Cache.SetOverwrites | cache_manager.py:38-48 | a second write of a key replaces the first entirely |
| Cache.SetOtherDigest | cache_manager.py:15-18 | writing one key never changes what another key with a different digest reads |
| Cache.SetSameDigest | cache_manager.py:15-18 | two keys with the same digest share one file: writing one is read through the other |
| Cache.FailedSetAddsNothing | cache_manager.py:49-50 | a failed write never makes a read return a value it did not return before |
| Database.ApplicationDatabase.constructor | database.py:23-81 | a new database has four empty tables and satisfies the UNIQUE constraints |
| Database.ApplicationDatabase.AddApplication | database.py:83-120 | a URL already applied to gives `None` and changes nothing; otherwise the row gets the next AUTOINCREMENT id, larger than every existing id, with status 'submitted', and one 'submitted' history row is added; the constraints are kept |
| Database.ApplicationDatabase.ApplicationExists | database.py:122-131 | true exactly when some application row has the URL |
| Database.ApplicationDatabase.JobSeen | database.py:133-148 | true exactly when the URL is in the applications table or the discovered-jobs table |
| Database.ApplicationDatabase.AddDiscoveredJob | database.py:150-162 | INSERT OR IGNORE: the set of seen URLs gains exactly this URL, the AUTOINCREMENT counter advances only when a row was inserted, and the other tables do not change |
| Database.ApplicationDatabase.AddSearchTerm | database.py:164-175 | INSERT OR IGNORE of an active (term, type) pair, the type "title" unless given, keeping UNIQUE(term, term_type); the counter advances only when a row was inserted |
| Database.ApplicationDatabase.DeleteSearchTerm | database.py:177-187 | removes the rows with that term, whatever their type, and keeps the constraint |
| Database.ApplicationDatabase.GetSearchTerms | database.py:189-196 | returns the active terms of the type ("title" unless given), in table order |
| Database.ApplicationDatabase.UpdateStatus | database.py:232-251 | sets the status of the rows with that id, if any, and always appends a history row; URLs and ids are unchanged |
| Database.ApplicationDatabase.GetStats | database.py:253-292 | total, and the GROUP BY counts of status and of platform |
| Database.ActiveTerms | database.py:193-194 | a term is returned exactly when some row has it with that type and is active |
| Database.WithoutTerm | database.py:182 | a row remains exactly when it was there and has another term |
| Database.WithStatus | database.py:239-241 | each row with the id gets the status, and every other row is unchanged |
| Database.Column | database.py:263-276 | the grouped column holds each row's value, row by row |
| Database.CountBy | database.py:263-276 | a value has a count exactly when it occurs in the column, and its count is the number of rows holding it |
| Database.AppendApplicationKeepsInvariant | database.py:42 | a row with a new URL and the next id keeps UNIQUE(job_url) and the increasing ids |
| Database.WithStatusKeepsInvariant | database.py:239-241 | a status change keeps the URLs, the ids and thus the constraints |
| Database.WithoutTermKeepsUnique | database.py:75 | deleting rows keeps the (term, term_type) pairs distinct |
| Database.DiscoveredIsSeen | database.py:150-162 | after `add_discovered_job(u)`, u is in the discovered-jobs table |
| Database.DiscoverIdempotent | database.py:157 | adding a discovered URL twice gives the same table as adding it once |
| Database.InsertDiscoveredDistinct | database.py:64 | INSERT OR IGNORE keeps the discovered URLs distinct |
| Database.AddTermIdempotent | database.py:169 | adding the same search term twice changes nothing |
| Database.DeleteRemovesEveryType | database.py:182 | after deletion no row holds the term under any type, and `get_search_terms` never returns it |
| Database.UpdateTouchesOnlyThatId | database.py:239-241 | rows with another id are unchanged, and so is the URL column |
| Database.CountBySum | database.py:263-268 | the GROUP BY counts add up to the number of rows |
| Database.StatsAddUp | database.py:253-292 | in the stats, total equals the sum of the by-status counts and the sum of the by-platform counts |
| Intelligence.Unfence | intelligence.py:63-66 | a reply without "```" is unchanged; otherwise the extracted payload contains no "```" |
| Intelligence.UnfenceJsonBlock | intelligence.py:63-64 | with "```json" present and no four-backtick run, the payload is the stripped text from after the first "```json" to the next "```" or the end |
| Intelligence.UnfencePlainBlock | intelligence.py:65-66 | without "```json" but with "```", the payload is the stripped text between the first two "```" |
| Intelligence.UnfenceBacktickRun | intelligence.py:63-64 | where a backtick run precedes a later "```json", the stray backtick is kept, as the split-based code does |
| Intelligence.Cleanup | intelligence.py:109 | after removing fences and stripping, no "```" remains and there is no whitespace at either end |
| Intelligence.CleanupPlainText | intelligence.py:109 | a reply without fences is only stripped |
| Intelligence.Unwrap | intelligence.py:69-73 | the key loop returns the value under the first of "jobs", "data", "results" that is present, and anything else unchanged |
| Intelligence.UnwrapOneLevel | intelligence.py:69-73 | unwrapping goes only one level deep |
| Intelligence.KeysDisjoint | intelligence.py:36-121 | the three operations' cache keys (lines 36, 86-87 and 120-121) never collide |
| Intelligence.ScoutKeyInjective | intelligence.py:36 | distinct queries have distinct scout keys |
| Intelligence.MatchKeyOfConcatenation | intelligence.py:86-87 | the match key depends only on resume + job, so the split between them is lost |
| Intelligence.HitSkipsProvider | intelligence.py:37-125 | in each of the three operations (lines 37-40, 89-92, 123-125) a truthy cached value is returned as it is, with no provider call and no write |
| Intelligence.FalsyCachedIsMiss | intelligence.py:38-124 | a falsy cached value, such as [], counts as a miss (the truthiness tests at lines 38, 90 and 124) |
| Intelligence.ScoutCachesOnlyLists | intelligence.py:42-81 | something is cached exactly when the decoded and unwrapped reply is a list, which is then also the result; the provider is called exactly on a miss with a key |
| Intelligence.ScoutWithoutKey | intelligence.py:42-44 | without a Perplexity key, a miss returns [] with no call and no write |
| Intelligence.ScoutReturnsList | intelligence.py:42-81 | every result that did not come from the cache is a list |
| Intelligence.AnalyzeCachesOnlySuccess | intelligence.py:94-115 | only a reply that decoded is cached, and it is the result; no client gives the score-50 verdict; an exception gives the failure verdict with its message |
| Intelligence.ProfileCachesOnlySuccess | intelligence.py:127-143 | only a reply that decoded is cached; every other miss returns the default profile |
| Intelligence.FallbackScores | intelligence.py:95-115 | the two fallback verdicts (lines 95 and 115) score 50 and 0, so they differ |
| Intelligence.JobIntelligence.constructor | intelligence.py:23-32 | a fresh cache with the default 24-hour expiry, and the key settings |
| Intelligence.JobIntelligence.ScoutJobs | intelligence.py:34-81 | the result and the new cache directory are those of the `Scout` decision on the cache read |
| Intelligence.JobIntelligence.AnalyzeMatch | intelligence.py:83-115 | the result and the new cache directory are those of the `Analyze` decision |
| Intelligence.JobIntelligence.ExtractSearchProfile | intelligence.py:117-143 | the result and the new cache directory are those of the `Profile` decision |
| Postings.PyTake | job_scrapers.py:91-166 | Python's `s[:limit]` (lines 91 and 166): a prefix of length `min(limit, len)` for a non-negative limit; a negative limit counts from the end |
| Postings.FilterUnseenFresh | job_api_search.py:60-79 | a kept job was fetched, its URL was not seen before, and no two kept jobs share a URL |
| Postings.FilterUnseenCovers | job_api_search.py:64-79 | afterwards every fetched URL is known, either as seen before or as a kept job's |
| Postings.FilterUnseenSubsequence | job_api_search.py:60-78 | the kept jobs are in fetch order |
| Postings.FilterUnseenSnoc | job_api_search.py:64-65 | a job is kept exactly when its URL is neither known nor met earlier |
| Postings.FilterUnseenAppend | job_scrapers.py:296-318 | filtering two batches in turn, with the store carried over, is filtering them together |
| Postings.MarkIfUnseen | job_api_search.py:64-79 | one step: the job is new exactly when its URL was unseen, and afterwards the URL is seen |
| Postings.KeepUnseen | job_scrapers.py:315-318 | the loop keeps exactly `FilterUnseen` of the jobs, and the store ends up having seen all their URLs |
| Postings.Comprehension | job_scrapers.py:371 | the dict's keys are the non-empty URLs |
| Postings.CollapseByUrlProperties | job_scrapers.py:371-372 | the result has distinct non-empty URLs covering all the non-empty URLs, each with the last job carrying it, listed in order of first occurrence |
| Postings.ComprehensionLastWins | job_scrapers.py:371 | the value under a URL is the last job with that URL |
| Postings.ComprehensionKeyOrder | job_scrapers.py:371-372 | keys come in order of each URL's first occurrence |
| Postings.CollapseDistinct | job_scrapers.py:371-372 | on jobs with distinct URLs, the collapse only drops the jobs without a URL |
| Postings.FirstPerUrl | job_api_search.py:155-161 | the loop returns the first job per non-empty URL, in order (`FilterUnseen` from {""}) |
| Postings.FirstPerUrlProperties | job_api_search.py:155-161 | no empty URL, distinct URLs, in order, and every non-empty URL is represented |
| ApiSearch.PageRequests | job_api_search.py:44-51 | n requests; request i carries the same query and remote flag and asks for page i |
| ApiSearch.Standardize | job_api_search.py:61-76 | the job dict of a record: its URL is the apply link or else the Google link; title, company, description, job type and posted date default to ""; the location falls back to the searched one; the platform is "JSearch API" |
| ApiSearch.RecordsBefore | job_api_search.py:60-91 | the records the loop handles before an element of `data` that is not a record makes it raise: a prefix of `data`, followed by such an element or by nothing |
| ApiSearch.RecordUrlEmpty | job_api_search.py:61 | the URL is empty exactly when neither link is a non-empty string |
| ApiSearch.StopPageIsFirstStop | job_api_search.py:44-92 | the walk stops at the first page whose reply fails, is a 429, is unparsable, or makes the record loop raise; with no such page it ends after the last page |
| ApiSearch.RequestCountProperties | job_api_search.py:44-92 | at most `num_pages` requests, and fewer only when the last reply stopped the walk |
| ApiSearch.WalkProperties | job_api_search.py:60-94 | a search returns no URL the store had seen, no URL twice, and jobs in page and record order |
| ApiSearch.MalformedRecordEndsWalk | job_api_search.py:60-92 | a reached page holding an element that is not a record is the last requested; the records before that element are fetched, nothing after it |
| ApiSearch.JobApiSearch.constructor | job_api_search.py:23-28 | an empty or missing key falls back to the environment's `RAPIDAPI_KEY` |
| ApiSearch.JobApiSearch.SearchJobs | job_api_search.py:30-94 | without a key, no requests and []; otherwise the requests go up to the stop page, the result is the seen filter over every job of the requested 200 pages (of a page whose loop raised, the records before the raise), and the store has seen all those URLs |
| ApiSearch.WalkPages | job_api_search.py:44-92 | the page loop keeps exactly the seen filter over the fetched jobs and issues exactly the requests up to the stop page |
| ApiSearch.VisitPage | job_api_search.py:55-91 | a requested page adds its jobs after the earlier pages' jobs: those of a 200 reply up to any malformed record, none otherwise |
| ApiSearch.AsWrittenNeverSearches | job_api_search.py:35-39 | as written, a call returns only with an empty key, and then returns [] |
| ApiSearch.FormatSalaryShapes | job_api_search.py:96-108 | the shape tells which amounts are given: "$" first exactly when there is a minimum; "+" last exactly when there is only a minimum; "Up to $" exactly when there is only a maximum; "Not specified" exactly when there is neither |
| ApiSearch.SalaryRangeDigits | job_api_search.py:101-102 | dropping the thousands separators from a range gives both amounts in plain decimal |
| ApiSearch.SalaryFromDigits | job_api_search.py:103-104 | the same for a minimum alone |
| ApiSearch.SalaryUpToDigits | job_api_search.py:105-106 | the same for a maximum alone |
| ApiSearch.PagesPerSearch | job_api_search.py:150 | at least one page; one exactly when fewer than 20 jobs are asked for; otherwise tens of jobs, rounded down |
| ApiSearch.SearchMultipleTitles | job_api_search.py:129-161 | the searches together return the seen filter over everything the title-by-location grid fetched, and the store has seen all those URLs; the result is the first job per non-empty URL of that, with distinct URLs none of which the store had seen, in the met order; with an empty key it is [] and the store is unchanged |
| ApiSearch.GridFetchedWithoutKey | job_api_search.py:35-37 | without a key no search of the grid fetches anything |
| ApiSearch.SearchRow | job_api_search.py:146-152 | the inner loop over the locations extends what was fetched by one title's row of the grid |
| ApiSearch.SearchOnce | job_api_search.py:147-152 | one search adds exactly its own pages' jobs to what was fetched, and its seen-filter result to what was collected |
| Text.Strip | intelligence.py:64-109 | `str.strip()` (lines 64 and 109): a slice of the input with no whitespace at either end, and only whitespace cut off |
| Text.Find | intelligence.py:63-66 | the leftmost occurrence, or none exactly when there is none |
| Text.Before | intelligence.py:64-66 | `split(sep)[0]`: the longest prefix without `sep`, ending where `sep` first occurs |
| Text.Replace | job_scrapers.py:79-135 | `str.replace` (lines 79-80 and 134-135): a text without the pattern is unchanged, and a one-character pattern becomes the replacement at each of its occurrences while every other character stays |
| Text.ReplaceFromEach | job_scrapers.py:79-135 | the left-to-right replacement of a one-character pattern equals rewriting the text character by character |
| Text.RemoveFencesLeavesNone | intelligence.py:109 | `s.replace("```", "")` contains no "```" |
| Text.GroupedIsDecimal | job_api_search.py:102 | dropping the separators of `format(n, ",")` gives `str(n)` |
| Text.Thousands | job_api_search.py:102 | `format(n, ",")` for any integer ends in a digit and starts with "-" exactly when n is negative |
| Scrapers.SearchUrlsEncodeSpaces | job_scrapers.py:79-136 | the search URLs (lines 79-81 and 134-136) hold the title and location with each space written "%20" for LinkedIn and "+" for Indeed and every other character kept; so no space remains, and a space-free title and location are used verbatim |
| Scrapers.LinkedInJobsProperties | job_scrapers.py:91-111 | at most one job per card, each on "LinkedIn" at the searched location with an empty description; one per card when every card has its elements |
| Scrapers.LinkedInSearchJobs | job_scrapers.py:64-118 | a driver that fails gives [] with no page loaded; otherwise one page is loaded and the jobs are those of its first `limit` cards |
| Scrapers.LinkedInAtMostLimit | job_scrapers.py:91 | LinkedIn returns at most `limit` jobs |
| Scrapers.IndeedJobShape | job_scrapers.py:169-203 | a card gives a job exactly when a title and a company are found; its URL is the view page of the card's job id (title anchor, else `data-jk` anchor, else the card), and "" exactly when that id is empty; its location falls back to the searched one |
| Scrapers.IndeedJobsProperties | job_scrapers.py:166-210 | at most one job per card, each on "Indeed", with a URL that is a view page or empty |
| Scrapers.FinalAttemptIsFirstFound | job_scrapers.py:131-213 | the retry loop ends at the first 200 reply with cards, or at the third attempt |
| Scrapers.IndeedResultProperties | job_scrapers.py:131-235 | jobs come only from a final reply with cards, and at most `limit` of them |
| Scrapers.BackoffsBound | job_scrapers.py:162-230 | attempt a sleeps (lines 162-163 and 215-230) at most 5·(a+1) seconds, so n attempts sleep at most 5+…+5·n |
| Scrapers.RetriesSleepAtMost30 | job_scrapers.py:129-230 | whatever the replies, the three attempts sleep at most 30 seconds before the final 2 |
| Scrapers.IndeedSearchJobs | job_scrapers.py:124-235 | one request per attempt up to the final one, all to the same search URL; the jobs are `IndeedResult`; the sleeps are each attempt's back-off followed by the final 2 seconds |
| Scrapers.TryOnce | job_scrapers.py:148-230 | an attempt ends the loop exactly on a 200 that has cards or is the last attempt; it then returns the jobs of the first `limit` cards; its sleep is 5·(attempt+1) on a 429, and otherwise 3 unless it ends the loop or is the last attempt |
| Scrapers.CollectIndeedCards | job_scrapers.py:166-210 | the card loop returns `IndeedJobs` of the cards |
| Scrapers.EnabledPlatformsProperties | job_scrapers.py:272-277 | a platform is scraped exactly when it is a known platform and enabled |
| Scrapers.AllPlatformsScraped | job_config.py:46-51 | with the shipped settings all four platforms are scraped, in dictionary order |
| Scrapers.ScraperJobsAtMostLimit | job_scrapers.py:91-264 | each scraper returns at most `limit_per_platform` jobs: LinkedIn and Indeed take at most that many cards (lines 91 and 166), and the Glassdoor and ZipRecruiter stubs (lines 241-264) return [] |
| Scrapers.RunScraper | job_scrapers.py:314 | dispatches to the platform's scraper; Glassdoor and ZipRecruiter return [] |
| Scrapers.ScoutPlatforms | job_scrapers.py:310-320 | the scraper loop keeps the seen filter over every scraper's jobs, in platform order, after what was fetched before |
| Scrapers.JobAggregator.constructor | job_scrapers.py:270-289 | a scraper for each enabled platform, and an API searcher exactly when `use_api` holds |
| Scrapers.JobAggregator.SearchAllPlatforms | job_scrapers.py:291-323 | the result is the seen filter over the API pages followed by each scraper's jobs, and the store has seen all those URLs |
| Scrapers.AggregatorGetsNoApiJobs | job_scrapers.py:296-307 | as written, the API step never contributes a job |
| Scrapers.SearchJobs | job_scrapers.py:350-372 | the searches together return the seen filter over everything the title-by-location grid fetched (the API pages with the environment key, then each configured scraper), and the store has seen all those URLs; the result is the last-wins collapse of that, equal to the first-occurrence filter, with distinct non-empty URLs none of which the store had seen |
| Scrapers.ScoutRow | job_scrapers.py:365-368 | the inner loop over the locations extends what was fetched by one title's row of the grid |
| Scrapers.ScoutOnce | job_scrapers.py:366-367 | one search adds exactly what the configured aggregator fetches for that location |
| Config.FirstConfiguredIsFirst | job_config.py:85-93 | the detected service is the first set variable's, and there is none exactly when none is set |
| Config.SelectServiceFollowsOrder | job_config.py:82-93 | a non-empty `AI_SERVICE` wins; otherwise the service is detected in the order OpenAI, Anthropic, Google, with "openai" as the default |
| Config.DetectionPriority | job_config.py:85-93 | each detected outcome holds exactly under its condition (both directions) |
| Config.DetectedServiceHasModel | job_config.py:82-100 | an auto-detected service always has an entry in `AI_MODELS` |
| Config.SelectServiceReadsFourVariables | job_config.py:82-93 | only `AI_SERVICE` and the three key variables decide the service |

## Left out

- Logging, the `time.sleep` calls and the HTTP headers are not modelled. The Indeed sleeps are returned as a list of seconds.
- Selenium, BeautifulSoup, `requests`, the Perplexity and Gemini clients, and the prompts are not modelled. Each becomes the reply it gives: a `Fetch`, a `Browser`, decoded cards, or a `Reply`.
- `json.loads`, `json.dump` and md5 are parameters. Their correctness is not modelled.
- SQLite errors other than the UNIQUE violation in `add_application` are not modelled. The methods whose source swallows every exception behave here as if the database never failed.
- `get_applications_today`, `get_all_applications` and the `this_week` count of `get_stats` are left out, because they depend on the calendar date.
- `JobAggregator.get_job_description` (job_scrapers.py:325-347) is not modelled. It is a single HTTP fetch whose page text is cut at 5000 characters, and nothing in the searches calls it.
- The `search_jobs_api` wrapper (job_api_search.py:111-126) is not modelled, because it only builds a searcher and calls `search_jobs`. main.py and resume_parser.py are not part of this model.
- Floating-point times are integers, and salaries are integers. A float salary is formatted differently by Python and is not modelled.
- `get_text(strip=True)` on an HTML element is approximated by `Strip` on its text.
- The difference between a missing dictionary key and a null value is not modelled. A record field is an `Option`, and "job_type"/"posted_date" default to an empty string when absent.
- `import config` in job_scrapers.py is taken to read job_config.py's `ENABLED_PLATFORMS`.
- Replies past the end of the given list count as a failed request: the page walk stops, and an Indeed attempt raises.
- A LinkedIn card whose link has no `href` is treated like a card missing an element. The source would keep it with a `None` URL.
- Intelligence.UnfenceJsonBlock: stated only for replies without a run of four backticks. `Intelligence.UnfenceBacktickRun` shows what the split-based extraction does when there is one.
- Scrapers.SearchUrlsEncodeSpaces: states what the title and location become inside the URLs, not that the fixed parts of the URLs have no spaces.
- The per-platform handler of `search_all_platforms` (job_scrapers.py:319-320) never fires in this model. Both scrapers catch their own errors (lines 109-116 and 223-230), the stubs return [], and every job has a `url` key. Only a store failure could reach the handler, and store failures are not modelled.
- In the AI helpers, the cache read and the later write share one `now`. Python reads the clock again in `set`, a few moments later.
- JSON numbers are integers, so the truthiness of a float value read from the cache (0.0) does not arise.
- A `data` entry that is an empty string or an empty object is walked by the source like an empty list. The model has no such body and uses `Records([])` for it.
- Every exception inside the `try` blocks of the AI helpers is one `Raised` reply: a failed request, an error status from `raise_for_status`, or a malformed response body.
- The module-level `search_jobs` builds its aggregator from the environment's key, and the aggregator's API step walks three pages, as the source does.

## Findings

| source | as written | input that shows it | evidently intended | confidence | as-written member | corrected member |
|---|---|---|---|---|---|---|
| job_api_search.py:39 | `search_jobs` calls `database.get_db()`, but the module never imports `database`, so any call with a key raises `NameError` before the first request. `search_all_platforms` swallows it (job_scrapers.py:306), so the API never contributes a job there. | any non-empty API key, e.g. `JobAPISearch("k").search_jobs("dev", "NYC")` | open the application store and walk the pages with the seen filter | not executed | ApiSearch.AsWrittenNeverSearches | ApiSearch.JobApiSearch.SearchJobs |
