/**
 * The JSearch API client (`JobAPISearch`): a page walk that standardizes
 * each record and skips jobs the store has already seen, the salary text,
 * and the multi-title search with its first-wins URL dedup. HTTP replies
 * are an input: `At(responses, p)` is what the request for page `p` returned.
 */
module ApiSearch {
  import opened Wrappers
  import opened Text
  import opened Database
  import opened Postings

  const PLATFORM := "JSearch API"

  /**
   * One element of the reply's `data` list. `None` is a key the record does
   * not have; `get(key, default)` then yields the default.
   */
  datatype ApiRecord = ApiRecord(
    applyLink: Option<string>, googleLink: Option<string>, title: Option<string>,
    employer: Option<string>, city: Option<string>, description: Option<string>,
    employmentType: Option<string>, postedAt: Option<string>,
    minSalary: Option<int>, maxSalary: Option<int>)

  /** One element of the `data` list: a record, or a value that is not an object, on which `job.get` raises. */
  datatype ApiItem = Record(record: ApiRecord) | Malformed

  /**
   * The decoded body of a 200 reply: its `data` list, an object without
   * `data`, text `.json()` rejects, or JSON that the record loop cannot walk
   * (a top-level list, or a `data` entry that is null or a number), on
   * which the loop raises before its first record.
   */
  datatype Body = Records(items: seq<ApiItem>) | NoDataKey | NotJson | NotAList

  /** The reply to one page request, or `Failed` when `requests.get` raised (timeout, connection error). */
  datatype PageResponse = Response(status: int, body: Body) | Failed

  /** The `query` parameter: the search terms, a space, the location. */
  function SearchQuery(query: string, location: string): string {
    query + " " + location
  }

  /** The query parameters of one request; `num_pages` is always "1". */
  datatype Params = Params(query: string, page: nat, remoteJobsOnly: bool)

  /** The requests for pages 1..n, in order. */
  function PageRequests(query: string, remoteOnly: bool, n: nat): (rs: seq<Params>)
    ensures |rs| == n
    ensures forall i :: 0 <= i < n ==> rs[i] == Params(query, i + 1, remoteOnly)
  {
    if n == 0 then [] else PageRequests(query, remoteOnly, n - 1) + [Params(query, n, remoteOnly)]
  }

  /** `job.get("job_apply_link") or job.get("job_google_link", "")`. */
  function RecordUrl(r: ApiRecord): string {
    if r.applyLink.Some? && r.applyLink.value != "" then r.applyLink.value else r.googleLink.GetOr("")
  }

  /** The job dictionary built from one record. */
  function Standardize(r: ApiRecord, location: string): (p: Posting)
    ensures p.platform == PLATFORM && p.url == RecordUrl(r)
    ensures p.title == r.title.GetOr("") && p.company == r.employer.GetOr("") && p.description == r.description.GetOr("")
    ensures p.location == r.city.GetOr(location)
    ensures p.jobType == Some(r.employmentType.GetOr("")) && p.postedDate == Some(r.postedAt.GetOr(""))
  {
    Posting(r.title.GetOr(""), r.employer.GetOr(""), r.city.GetOr(location), RecordUrl(r),
            r.description.GetOr(""), PLATFORM, Some(r.employmentType.GetOr("")), Some(r.postedAt.GetOr("")))
  }

  /** `[standardize(job) for job in data]`: the records' jobs in record order. */
  function StandardizeAll(records: seq<ApiRecord>, location: string): (jobs: seq<Posting>)
    ensures |jobs| == |records|
    ensures forall i :: 0 <= i < |jobs| ==> jobs[i] == Standardize(records[i], location)
  {
    if records == [] then [] else [Standardize(records[0], location)] + StandardizeAll(records[1..], location)
  }

  /** The records of `data` up to the first element that is not one: the loop handles these before it raises. */
  function RecordsBefore(items: seq<ApiItem>): (rs: seq<ApiRecord>)
    ensures |rs| <= |items|
    ensures forall i :: 0 <= i < |rs| ==> items[i] == Record(rs[i])
    ensures |rs| < |items| ==> items[|rs|].Malformed?
  {
    if items == [] || items[0].Malformed? then [] else [items[0].record] + RecordsBefore(items[1..])
  }

  /** The record loop raises on this body: it cannot be walked, or one of its elements is not a record. */
  predicate Raises(body: Body) {
    body.NotAList? || (body.Records? && Malformed in body.items)
  }

  /** The jobs of one page, in record order, before the seen filter: those of the records before any malformed one. */
  function PageJobs(body: Body, location: string): seq<Posting> {
    if body.Records? then StandardizeAll(RecordsBefore(body.items), location) else []
  }

  /** The jobs a reached page contributes: those of a 200 reply, none for any other status. */
  function PageOf(r: PageResponse, location: string): seq<Posting> {
    if r.Response? && r.status == 200 then PageJobs(r.body, location) else []
  }

  /**
   * The reply to the request for page `p`: the replies are listed from page 1
   * on, and a page past the end of the list stands for a request that raised.
   */
  function At(responses: seq<PageResponse>, p: nat): PageResponse {
    if 1 <= p <= |responses| then responses[p - 1] else Failed
  }

  /**
   * A reply that ends the walk: a failed request, a 429, or a 200 whose
   * body is not JSON or makes the record loop raise.
   */
  predicate Stops(r: PageResponse) {
    r.Failed? || r.status == 429 || (r.status == 200 && (r.body.NotJson? || Raises(r.body)))
  }

  /** No page before `page` ended the walk, so the walk requests page `page` when it is in range. */
  predicate Reaches(responses: seq<PageResponse>, page: nat) {
    forall p :: 1 <= p < page ==> !Stops(At(responses, p))
  }

  lemma ReachesNext(responses: seq<PageResponse>, page: nat)
    requires Reaches(responses, page) && !Stops(At(responses, page))
    ensures Reaches(responses, page + 1)
  {
  }

  /** The page where the walk from `page` on stops: the first one in range whose reply ends it, else the one after the last. */
  function StopFrom(page: nat, numPages: int, responses: seq<PageResponse>): nat
    decreases if page <= numPages then numPages - page + 1 else 0
  {
    if page > numPages || Stops(At(responses, page)) then page else StopFrom(page + 1, numPages, responses)
  }

  function StopPage(numPages: int, responses: seq<PageResponse>): nat {
    StopFrom(1, numPages, responses)
  }

  lemma {:induction false} StopFromProperties(page: nat, numPages: int, responses: seq<PageResponse>)
    requires Reaches(responses, page)
    ensures var s := StopFrom(page, numPages, responses);
      page <= s && (s <= numPages + 1 || s == page) && Reaches(responses, s) && (s <= numPages ==> Stops(At(responses, s)))
    decreases if page <= numPages then numPages - page + 1 else 0
  {
    if page <= numPages && !Stops(At(responses, page)) {
      ReachesNext(responses, page);
      StopFromProperties(page + 1, numPages, responses);
    }
  }

  /**
   * The walk stops at the first page in range whose reply ends it, and after
   * the last page when none does: no earlier page stops it.
   */
  lemma StopPageIsFirstStop(numPages: int, responses: seq<PageResponse>)
    ensures 1 <= StopPage(numPages, responses) <= (if numPages > 0 then numPages else 0) + 1
    ensures Reaches(responses, StopPage(numPages, responses))
    ensures StopPage(numPages, responses) <= numPages ==> Stops(At(responses, StopPage(numPages, responses)))
  {
    StopFromProperties(1, numPages, responses);
  }

  /** The jobs of pages 1..n-1, each page's contribution as `PageOf` gives it. */
  function FetchedBefore(n: nat, responses: seq<PageResponse>, location: string): seq<Posting> {
    if n <= 1 then [] else FetchedBefore(n - 1, responses, location) + PageOf(At(responses, n - 1), location)
  }

  /**
   * Every job on the 200 pages the walk requests, in page order and then
   * record order; of the page that ends the walk, the records handled
   * before the loop raised.
   */
  function Fetched(numPages: int, responses: seq<PageResponse>, location: string): seq<Posting> {
    FetchedBefore(RequestCount(numPages, responses) + 1, responses, location)
  }

  /** A page the walk gets past adds its own jobs after those of the pages before it. */
  lemma FetchedBeforeNext(n: nat, responses: seq<PageResponse>, location: string)
    requires 1 <= n
    ensures FetchedBefore(n + 1, responses, location) == FetchedBefore(n, responses, location) + PageOf(At(responses, n), location)
  {
  }

  /**
   * What a search returns: no URL the store had seen, no URL twice, and the
   * jobs in the order the pages and their records came.
   */
  lemma WalkProperties(known: set<string>, numPages: int, responses: seq<PageResponse>, location: string)
    ensures forall j :: j in FilterUnseen(known, Fetched(numPages, responses, location)) ==>
              j.url !in known && j in Fetched(numPages, responses, location)
    ensures DistinctUrls(FilterUnseen(known, Fetched(numPages, responses, location)))
    ensures Subsequence(FilterUnseen(known, Fetched(numPages, responses, location)), Fetched(numPages, responses, location))
  {
    var all := Fetched(numPages, responses, location);
    FilterUnseenFresh(known, all);
    FilterUnseenSubsequence(known, all);
  }

  /** A job's URL is empty exactly when neither link is a non-empty string. */
  lemma RecordUrlEmpty(r: ApiRecord)
    ensures RecordUrl(r) == "" <==>
              (r.applyLink.None? || r.applyLink.value == "") && (r.googleLink.None? || r.googleLink.value == "")
    ensures RecordUrl(r) != "" ==> RecordUrl(r) in {r.applyLink.GetOr(""), r.googleLink.GetOr("")}
  {
  }

  class JobApiSearch {
    const apiKey: string

    /** `JobAPISearch(api_key)`: an empty or missing key falls back to the `RAPIDAPI_KEY` environment value. */
    constructor (apiKey: Option<string>, envKey: string)
      ensures this.apiKey == if apiKey.Some? && apiKey.value != "" then apiKey.value else envKey
    {
      this.apiKey := if apiKey.Some? && apiKey.value != "" then apiKey.value else envKey;
    }

    /**
     * `search_jobs` with the store `db` in place of the module-level
     * `database.get_db()`. Requests pages 1..numPages in order; a failed
     * request, a 429 or a body that is not JSON ends the walk, any other
     * non-200 status skips the page; each kept job's URL is marked at once.
     */
    method SearchJobs(query: string, location: string, numPages: int, remoteOnly: bool,
                      db: ApplicationDatabase, responses: seq<PageResponse>, now: string)
      returns (jobs: seq<Posting>, requests: seq<Params>)
      requires db.Valid()
      modifies db
      ensures db.Valid()
      ensures apiKey == "" ==> jobs == [] && requests == [] && db.Known() == old(db.Known())
      ensures apiKey != "" ==> jobs == FilterUnseen(old(db.Known()), Fetched(numPages, responses, location))
      ensures apiKey != "" ==> db.Known() == old(db.Known()) + UrlSet(Fetched(numPages, responses, location))
      ensures apiKey != "" ==> |requests| == RequestCount(numPages, responses)
      ensures requests == PageRequests(SearchQuery(query, location), remoteOnly, |requests|)
      ensures db.OtherTables() == old(db.OtherTables())
    {
      jobs, requests := [], [];
      if apiKey == "" {
        return;
      }
      jobs, requests := WalkPages(query, location, numPages, remoteOnly, db, responses, now);
    }
  }

  /** How many pages the walk requests: up to and including the page that stops it, or all of them. */
  function RequestCount(numPages: int, responses: seq<PageResponse>): nat {
    var s := StopPage(numPages, responses);
    if s <= numPages then s else s - 1
  }

  /**
   * At most `numPages` requests; every reply before the last request let the
   * walk go on, and fewer than `numPages` requests means the last reply stopped it.
   */
  lemma RequestCountProperties(numPages: int, responses: seq<PageResponse>)
    ensures RequestCount(numPages, responses) <= if numPages > 0 then numPages else 0
    ensures Reaches(responses, RequestCount(numPages, responses))
    ensures RequestCount(numPages, responses) < numPages ==>
              RequestCount(numPages, responses) > 0 && Stops(At(responses, RequestCount(numPages, responses)))
  {
    StopPageIsFirstStop(numPages, responses);
  }

  /**
   * A page the walk reaches whose `data` holds an element that is not a
   * record is the last one requested: the records before that element are
   * fetched with it, the rest of the page and every later page are not.
   */
  lemma MalformedRecordEndsWalk(numPages: int, responses: seq<PageResponse>, location: string, p: nat)
    requires 1 <= p <= numPages && Reaches(responses, p)
    requires At(responses, p).Response? && At(responses, p).status == 200
    requires At(responses, p).body.Records? && Malformed in At(responses, p).body.items
    ensures RequestCount(numPages, responses) == p
    ensures Fetched(numPages, responses, location)
              == FetchedBefore(p, responses, location) + StandardizeAll(RecordsBefore(At(responses, p).body.items), location)
  {
    StopPageIsFirstStop(numPages, responses);
    FetchedBeforeNext(p, responses, location);
  }

  /** The page loop of `search_jobs`: requests pages 1..numPages until a reply ends the walk. */
  method WalkPages(query: string, location: string, numPages: int, remoteOnly: bool,
                   db: ApplicationDatabase, responses: seq<PageResponse>, now: string)
    returns (jobs: seq<Posting>, requests: seq<Params>)
    requires db.Valid()
    modifies db
    ensures Tracks(db, old(db.Known()), Fetched(numPages, responses, location), jobs)
    ensures requests == PageRequests(SearchQuery(query, location), remoteOnly, RequestCount(numPages, responses))
    ensures db.OtherTables() == old(db.OtherTables())
  {
    jobs, requests := [], [];
    ghost var known0 := db.Known();
    var q := SearchQuery(query, location);
    var page := 1;
    while page <= numPages
      invariant 1 <= page
      invariant StopFrom(page, numPages, responses) == StopPage(numPages, responses)
      invariant Tracks(db, known0, FetchedBefore(page, responses, location), jobs)
      invariant requests == PageRequests(q, remoteOnly, page - 1)
      invariant db.OtherTables() == old(db.OtherTables())
      decreases numPages - page + 1
    {
      var done;
      jobs, requests, done := WalkStep(q, location, numPages, remoteOnly, db, responses, now, known0, page, jobs,
                                       requests);
      if done {
        return;
      }
      page := page + 1;
    }
    WalkEndsAt(page, numPages, responses);
  }

  /**
   * One page of the loop: request it, then either stop there or keep what
   * its reply lets through and go on to the next page.
   */
  method WalkStep(q: string, location: string, numPages: int, remoteOnly: bool, db: ApplicationDatabase,
                  responses: seq<PageResponse>, now: string, ghost known0: set<string>, page: nat,
                  jobs: seq<Posting>, requests: seq<Params>)
    returns (jobs': seq<Posting>, requests': seq<Params>, done: bool)
    requires 1 <= page <= numPages && StopFrom(page, numPages, responses) == StopPage(numPages, responses)
    requires Tracks(db, known0, FetchedBefore(page, responses, location), jobs)
    requires requests == PageRequests(q, remoteOnly, page - 1)
    modifies db
    ensures requests' == PageRequests(q, remoteOnly, page)
    ensures done ==> Tracks(db, known0, Fetched(numPages, responses, location), jobs')
                     && RequestCount(numPages, responses) == page
    ensures !done ==> Tracks(db, known0, FetchedBefore(page + 1, responses, location), jobs')
                      && StopFrom(page + 1, numPages, responses) == StopPage(numPages, responses)
    ensures db.OtherTables() == old(db.OtherTables())
  {
    requests' := requests + [Params(q, page, remoteOnly)];
    PageRequestsNext(q, remoteOnly, page);
    jobs' := VisitPage(db, responses, page, location, now, known0, jobs);
    if Stops(At(responses, page)) {
      WalkEndsAt(page, numPages, responses);
      done := true;
    } else {
      StopFromNext(page, numPages, responses);
      done := false;
    }
  }

  lemma PageRequestsNext(query: string, remoteOnly: bool, n: nat)
    requires n >= 1
    ensures PageRequests(query, remoteOnly, n) == PageRequests(query, remoteOnly, n - 1) + [Params(query, n, remoteOnly)]
  {
  }

  /** A page in range that does not stop the walk passes the search for the stop page on. */
  lemma StopFromNext(page: nat, numPages: int, responses: seq<PageResponse>)
    requires page <= numPages && !Stops(At(responses, page))
    ensures StopFrom(page, numPages, responses) == StopFrom(page + 1, numPages, responses)
  {
  }

  /** Where the page loop leaves, it has reached the stop page. */
  lemma WalkEndsAt(page: nat, numPages: int, responses: seq<PageResponse>)
    requires StopFrom(page, numPages, responses) == StopPage(numPages, responses)
    requires page > numPages || Stops(At(responses, page))
    ensures StopPage(numPages, responses) == page
    ensures RequestCount(numPages, responses) == if page <= numPages then page else page - 1
  {
  }

  /**
   * The handling of the reply to page `page`: only a 200 reply's jobs go
   * through the seen filter, those before a malformed record included.
   * `known0` is the store's URLs before the walk, `jobs` what the pages
   * before this one kept.
   */
  method VisitPage(db: ApplicationDatabase, responses: seq<PageResponse>, page: nat, location: string,
                   now: string, ghost known0: set<string>, jobs: seq<Posting>)
    returns (jobs': seq<Posting>)
    requires 1 <= page
    requires Tracks(db, known0, FetchedBefore(page, responses, location), jobs)
    modifies db
    ensures Tracks(db, known0, FetchedBefore(page + 1, responses, location), jobs')
    ensures db.OtherTables() == old(db.OtherTables())
  {
    var response := At(responses, page);
    var kept := [];
    if response.Response? && response.status == 200 {
      kept := KeepUnseen(db, PageJobs(response.body, location), now);
    }
    ghost var before := FetchedBefore(page, responses, location);
    FilterUnseenAppend(known0, before, PageOf(response, location));
    UrlSetAppend(before, PageOf(response, location));
    FetchedBeforeNext(page, responses, location);
    jobs' := jobs + kept;
  }

  // ---------------------------------------------------------------------------
  // The method as written

  /** What a call of `search_jobs` as written ends with. */
  datatype Outcome = Returned(jobs: seq<Posting>) | NameErrorRaised

  /**
   * `search_jobs` as written: with a key set, the first statement after the
   * key check looks up the name `database`, which the module never imports,
   * so the call raises before any request.
   */
  function SearchJobsAsWritten(apiKey: string): Outcome {
    if apiKey == "" then Returned([]) else NameErrorRaised
  }

  /** As written, a search with a key never returns jobs: the one input on which it returns is an empty key. */
  lemma AsWrittenNeverSearches(apiKey: string)
    ensures SearchJobsAsWritten(apiKey).Returned? <==> apiKey == ""
    ensures SearchJobsAsWritten(apiKey).Returned? ==> SearchJobsAsWritten(apiKey).jobs == []
  {
  }

  // ---------------------------------------------------------------------------
  // _format_salary

  /** Python truthiness of a salary field: missing, null and 0 count as absent. */
  predicate SalaryGiven(x: Option<int>) {
    x.Some? && x.value != 0
  }

  const NOT_SPECIFIED := "Not specified"
  const UP_TO := "Up to $"

  /** `_format_salary`: the amounts with comma separators, in four shapes. */
  function FormatSalary(minSalary: Option<int>, maxSalary: Option<int>): string {
    if SalaryGiven(minSalary) && SalaryGiven(maxSalary) then
      "$" + Thousands(minSalary.value) + " - $" + Thousands(maxSalary.value)
    else if SalaryGiven(minSalary) then "$" + Thousands(minSalary.value) + "+"
    else if SalaryGiven(maxSalary) then UP_TO + Thousands(maxSalary.value)
    else NOT_SPECIFIED
  }

  /**
   * Which shape the text takes tells which amounts were given: a leading `$`
   * exactly when there is a minimum, a trailing `+` exactly when there is only
   * a minimum, the `Up to $` prefix exactly when there is only a maximum, and
   * `Not specified` exactly when there is neither.
   */
  lemma FormatSalaryShapes(minSalary: Option<int>, maxSalary: Option<int>)
    ensures var r := FormatSalary(minSalary, maxSalary);
      && |r| > 0
      && (r == NOT_SPECIFIED <==> !SalaryGiven(minSalary) && !SalaryGiven(maxSalary))
      && (r[0] == '$' <==> SalaryGiven(minSalary))
      && (r[|r| - 1] == '+' <==> SalaryGiven(minSalary) && !SalaryGiven(maxSalary))
      && ((|r| >= |UP_TO| && r[..|UP_TO|] == UP_TO) <==> !SalaryGiven(minSalary) && SalaryGiven(maxSalary))
  {
    if SalaryGiven(minSalary) && SalaryGiven(maxSalary) {
      RangeShape(Thousands(minSalary.value), Thousands(maxSalary.value));
    } else if SalaryGiven(minSalary) {
      FromShape(Thousands(minSalary.value));
    } else if SalaryGiven(maxSalary) {
      UpToShape(Thousands(maxSalary.value));
    } else {
      assert NOT_SPECIFIED[..|UP_TO|][0] == 'N';
    }
  }

  /** The range shape: "$", the minimum, " - $", the maximum (which ends in a digit). */
  lemma RangeShape(lo: string, hi: string)
    requires |hi| > 0 && hi[|hi| - 1] != '+'
    ensures var r := "$" + lo + " - $" + hi;
            && r != NOT_SPECIFIED && r[0] == '$' && r[|r| - 1] != '+' && !(|r| >= |UP_TO| && r[..|UP_TO|] == UP_TO)
  {
    var r := "$" + lo + " - $" + hi;
    assert r[|r| - 1] == hi[|hi| - 1] && r[0] == '$';
    assert |r| >= |UP_TO| ==> r[..|UP_TO|][0] == '$';
  }

  /** The lower-bound shape: "$", the minimum, "+". */
  lemma FromShape(lo: string)
    ensures var r := "$" + lo + "+";
            && r != NOT_SPECIFIED && r[0] == '$' && r[|r| - 1] == '+' && !(|r| >= |UP_TO| && r[..|UP_TO|] == UP_TO)
  {
    var r := "$" + lo + "+";
    assert r[0] == '$' && r[|r| - 1] == '+';
    assert |r| >= |UP_TO| ==> r[..|UP_TO|][0] == '$';
  }

  /** The upper-bound shape: "Up to $" and the maximum (which ends in a digit). */
  lemma UpToShape(hi: string)
    requires |hi| > 0 && hi[|hi| - 1] != '+'
    ensures var r := UP_TO + hi;
            && r != NOT_SPECIFIED && r[0] != '$' && r[|r| - 1] != '+' && |r| >= |UP_TO| && r[..|UP_TO|] == UP_TO
  {
    var r := UP_TO + hi;
    assert r[|r| - 1] == hi[|hi| - 1] && r[0] == 'U' && r[..|UP_TO|] == UP_TO;
  }

  /** Dropping the separators from a salary range gives back both amounts in plain decimal. */
  lemma SalaryRangeDigits(lo: nat, hi: nat)
    requires lo > 0 && hi > 0
    ensures WithoutCommas(FormatSalary(Some(lo), Some(hi))) == "$" + Decimal(lo) + " - $" + Decimal(hi)
  {
    assert ',' !in "$" && ',' !in " - $";
    assert FormatSalary(Some(lo), Some(hi)) == "$" + Grouped(lo) + " - $" + Grouped(hi);
    GroupedPairAmidText("$", lo, " - $", hi);
  }

  /** The same for a lower bound alone. */
  lemma SalaryFromDigits(lo: nat)
    requires lo > 0
    ensures WithoutCommas(FormatSalary(Some(lo), None)) == "$" + Decimal(lo) + "+"
  {
    assert ',' !in "$" && ',' !in "+";
    assert FormatSalary(Some(lo), None) == "$" + Grouped(lo) + "+";
    GroupedAmidText("$", lo, "+");
  }

  /** And for an upper bound alone. */
  lemma SalaryUpToDigits(hi: nat)
    requires hi > 0
    ensures WithoutCommas(FormatSalary(None, Some(hi))) == UP_TO + Decimal(hi)
  {
    assert ',' !in UP_TO;
    assert FormatSalary(None, Some(hi)) == UP_TO + Grouped(hi);
    GroupedAfterText(UP_TO, hi);
  }

  // ---------------------------------------------------------------------------
  // search_multiple_titles

  /** `max(1, jobs_per_search // 10)`; `//` floors, as Dafny's `/` does for a positive divisor. */
  function PagesPerSearch(jobsPerSearch: int): (n: int)
    ensures n >= 1
    ensures n == 1 <==> jobsPerSearch < 20
    ensures jobsPerSearch >= 10 ==> 10 * n <= jobsPerSearch < 10 * n + 10
  {
    if jobsPerSearch / 10 > 1 then jobsPerSearch / 10 else 1
  }

  /** The replies to one search of the grid; a search without listed replies fails at its first request. */
  function RepliesFor(replies: seq<seq<seq<PageResponse>>>, t: nat, l: nat): seq<PageResponse> {
    if t < |replies| && l < |replies[t]| then replies[t][l] else []
  }

  /** The jobs one search of the grid fetches: none without a key, else those of the pages it requests. */
  function SearchFetched(apiKey: string, location: string, numPages: int, responses: seq<PageResponse>): seq<Posting> {
    if apiKey == "" then [] else Fetched(numPages, responses, location)
  }

  /** The jobs the searches for title number `t` at the first `n` locations fetch, location by location. */
  function RowFetched(apiKey: string, locations: seq<string>, n: nat, t: nat, numPages: int,
                      replies: seq<seq<seq<PageResponse>>>): seq<Posting>
    requires n <= |locations|
  {
    if n == 0 then []
    else RowFetched(apiKey, locations, n - 1, t, numPages, replies)
         + SearchFetched(apiKey, locations[n - 1], numPages, RepliesFor(replies, t, n - 1))
  }

  /**
   * The jobs the searches for the first `m` titles fetch: title by title,
   * and for each title location by location. A title only enters the
   * requests, so the grid depends on how many titles there are.
   */
  function GridFetched(apiKey: string, m: nat, locations: seq<string>, numPages: int,
                       replies: seq<seq<seq<PageResponse>>>): seq<Posting>
  {
    if m == 0 then []
    else GridFetched(apiKey, m - 1, locations, numPages, replies)
         + RowFetched(apiKey, locations, |locations|, m - 1, numPages, replies)
  }

  /** Without a key no search of the grid fetches anything. */
  lemma {:induction false} GridFetchedWithoutKey(m: nat, locations: seq<string>, numPages: int,
                                                 replies: seq<seq<seq<PageResponse>>>)
    ensures GridFetched("", m, locations, numPages, replies) == []
    decreases m
  {
    if m > 0 {
      GridFetchedWithoutKey(m - 1, locations, numPages, replies);
      RowFetchedWithoutKey(locations, |locations|, m - 1, numPages, replies);
    }
  }

  lemma {:induction false} RowFetchedWithoutKey(locations: seq<string>, n: nat, t: nat, numPages: int,
                                                replies: seq<seq<seq<PageResponse>>>)
    requires n <= |locations|
    ensures RowFetched("", locations, n, t, numPages, replies) == []
    decreases n
  {
    if n > 0 {
      RowFetchedWithoutKey(locations, n - 1, t, numPages, replies);
    }
  }

  /** The search at location `l` extends what the grid has fetched up to it. */
  lemma RowFetchedNext(apiKey: string, m: nat, locations: seq<string>, l: nat, numPages: int,
                       replies: seq<seq<seq<PageResponse>>>)
    requires l < |locations|
    ensures GridFetched(apiKey, m, locations, numPages, replies) + RowFetched(apiKey, locations, l + 1, m, numPages, replies)
            == GridFetched(apiKey, m, locations, numPages, replies) + RowFetched(apiKey, locations, l, m, numPages, replies)
               + SearchFetched(apiKey, locations[l], numPages, RepliesFor(replies, m, l))
  {
    SeqAssoc(GridFetched(apiKey, m, locations, numPages, replies), RowFetched(apiKey, locations, l, m, numPages, replies),
             SearchFetched(apiKey, locations[l], numPages, RepliesFor(replies, m, l)));
  }

  /**
   * `search_multiple_titles`: one search per title and location, in that
   * nesting, then the first job per non-empty URL. `replies[t][l]` are the
   * replies to the search for `titles[t]` in `locations[l]`. `all` is what
   * the searches return together: the seen filter over everything the grid
   * fetched, which the store has marked.
   */
  method SearchMultipleTitles(searcher: JobApiSearch, titles: seq<string>, locations: seq<string>,
                              jobsPerSearch: int, db: ApplicationDatabase,
                              replies: seq<seq<seq<PageResponse>>>, now: string)
    returns (unique: seq<Posting>, ghost all: seq<Posting>)
    requires db.Valid()
    modifies db
    ensures db.Valid()
    ensures all == FilterUnseen(old(db.Known()), GridFetched(searcher.apiKey, |titles|, locations, PagesPerSearch(jobsPerSearch), replies))
    ensures db.Known() == old(db.Known()) + UrlSet(GridFetched(searcher.apiKey, |titles|, locations, PagesPerSearch(jobsPerSearch), replies))
    ensures unique == FilterUnseen({""}, all)
    ensures forall j :: j in unique ==> j.url != "" && j.url !in old(db.Known())
    ensures DistinctUrls(unique) && Subsequence(unique, all)
    ensures searcher.apiKey == "" ==> unique == [] && db.Known() == old(db.Known())
    ensures db.OtherTables() == old(db.OtherTables())
  {
    ghost var known0 := db.Known();
    ghost var fetched: seq<Posting> := [];
    var numPages := PagesPerSearch(jobsPerSearch);
    var collected: seq<Posting> := [];
    var t := 0;
    while t < |titles|
      invariant 0 <= t <= |titles|
      invariant fetched == GridFetched(searcher.apiKey, t, locations, numPages, replies)
      invariant Tracks(db, known0, fetched, collected)
      invariant db.OtherTables() == old(db.OtherTables())
    {
      collected, fetched := SearchRow(searcher, titles[t], t, locations, numPages, db, replies, now, known0,
                                      collected, fetched);
      t := t + 1;
    }
    if searcher.apiKey == "" {
      GridFetchedWithoutKey(|titles|, locations, numPages, replies);
    }
    FilterUnseenFresh(known0, fetched);
    unique := FirstPerUrl(collected);
    all := collected;
    FirstPerUrlProperties(collected);
  }

  /** The inner loop of `search_multiple_titles`: title number `t` searched at every location in turn. */
  method SearchRow(searcher: JobApiSearch, title: string, t: nat, locations: seq<string>, numPages: int,
                   db: ApplicationDatabase, replies: seq<seq<seq<PageResponse>>>, now: string,
                   ghost known0: set<string>, collected: seq<Posting>, ghost fetched: seq<Posting>)
    returns (collected': seq<Posting>, ghost fetched': seq<Posting>)
    requires Tracks(db, known0, fetched, collected)
    requires fetched == GridFetched(searcher.apiKey, t, locations, numPages, replies)
    modifies db
    ensures fetched' == GridFetched(searcher.apiKey, t + 1, locations, numPages, replies)
    ensures Tracks(db, known0, fetched', collected')
    ensures db.OtherTables() == old(db.OtherTables())
  {
    collected', fetched' := collected, fetched;
    assert fetched' == fetched + RowFetched(searcher.apiKey, locations, 0, t, numPages, replies);
    var l := 0;
    while l < |locations|
      invariant 0 <= l <= |locations|
      invariant fetched' == fetched + RowFetched(searcher.apiKey, locations, l, t, numPages, replies)
      invariant Tracks(db, known0, fetched', collected')
      invariant db.OtherTables() == old(db.OtherTables())
    {
      RowFetchedNext(searcher.apiKey, t, locations, l, numPages, replies);
      collected', fetched' := SearchOnce(searcher, title, locations[l], numPages, db,
                                         RepliesFor(replies, t, l), now, known0, collected', fetched');
      l := l + 1;
    }
  }

  /**
   * One search of the grid in `search_multiple_titles`: its jobs join those
   * collected so far, and the jobs its pages held join those fetched so far.
   */
  method SearchOnce(searcher: JobApiSearch, title: string, location: string, numPages: int,
                    db: ApplicationDatabase, responses: seq<PageResponse>, now: string,
                    ghost known0: set<string>, collected: seq<Posting>, ghost fetched: seq<Posting>)
    returns (collected': seq<Posting>, ghost fetched': seq<Posting>)
    requires Tracks(db, known0, fetched, collected)
    modifies db
    ensures fetched' == fetched + SearchFetched(searcher.apiKey, location, numPages, responses)
    ensures Tracks(db, known0, fetched', collected')
    ensures db.OtherTables() == old(db.OtherTables())
  {
    ghost var page := SearchFetched(searcher.apiKey, location, numPages, responses);
    var jobs, _ := searcher.SearchJobs(title, location, numPages, false, db, responses, now);
    FilterUnseenAppend(known0, fetched, page);
    UrlSetAppend(fetched, page);
    collected' := collected + jobs;
    fetched' := fetched + page;
  }
}
