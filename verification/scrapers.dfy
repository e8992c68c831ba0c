/**
 * The job-board scrapers and the aggregator over them (job_scrapers.py).
 * What the network and the browser return is input: the reply of each
 * Indeed attempt with the elements its parser finds, and the cards the
 * LinkedIn browser session finds. Sleeps are recorded as the list of
 * their durations in seconds.
 */
module Scrapers {
  import opened Wrappers
  import opened Text
  import opened Database
  import opened Postings
  import opened ApiSearch
  import Config

  // ---------------------------------------------------------------------------
  // Search URLs

  const LINKEDIN_SEARCH := "https://www.linkedin.com/jobs/search/?keywords="
  const INDEED_SEARCH := "https://www.indeed.com/jobs?q="
  const INDEED_VIEW := "https://www.indeed.com/viewjob?jk="

  /** The LinkedIn search page: title and location with each space written `%20`. */
  function LinkedInUrl(title: string, location: string): string {
    LINKEDIN_SEARCH + Replace(title, " ", "%20") + "&location=" + Replace(location, " ", "%20")
  }

  /** The Indeed search page: title and location with each space written `+`. */
  function IndeedUrl(title: string, location: string): string {
    INDEED_SEARCH + Replace(title, " ", "+") + "&l=" + Replace(location, " ", "+")
  }

  /**
   * The title and location go into either search URL with each space
   * written `%20` (LinkedIn) or `+` (Indeed) and every other character kept;
   * so no space remains, and a title and location without spaces go in unchanged.
   */
  lemma SearchUrlsEncodeSpaces(title: string, location: string)
    ensures LinkedInUrl(title, location)
              == LINKEDIN_SEARCH + EachCharReplaced(title, ' ', "%20") + "&location=" + EachCharReplaced(location, ' ', "%20")
    ensures IndeedUrl(title, location)
              == INDEED_SEARCH + EachCharReplaced(title, ' ', "+") + "&l=" + EachCharReplaced(location, ' ', "+")
    ensures ' ' !in Replace(title, " ", "%20") && ' ' !in Replace(location, " ", "%20")
    ensures ' ' !in Replace(title, " ", "+") && ' ' !in Replace(location, " ", "+")
    ensures ' ' !in title && ' ' !in location ==>
              LinkedInUrl(title, location) == LINKEDIN_SEARCH + title + "&location=" + location
              && IndeedUrl(title, location) == INDEED_SEARCH + title + "&l=" + location
  {
    assert " " == [' '];
    ReplaceCharRemoves(title, ' ', "%20", 0);
    ReplaceCharRemoves(location, ' ', "%20", 0);
    ReplaceCharRemoves(title, ' ', "+", 0);
    ReplaceCharRemoves(location, ' ', "+", 0);
    if ' ' !in title && ' ' !in location {
      ReplaceCharAbsent(title, ' ', "%20");
      ReplaceCharAbsent(location, ' ', "%20");
      ReplaceCharAbsent(title, ' ', "+");
      ReplaceCharAbsent(location, ' ', "+");
    }
  }

  // ---------------------------------------------------------------------------
  // LinkedInScraper.search_jobs

  /**
   * One `base-card` element: the title and company texts and the `href` of
   * its anchor, `None` where `find_element` finds nothing.
   */
  datatype LinkedInCard = LinkedInCard(title: Option<string>, company: Option<string>, href: Option<string>)

  /** The browser session: it failed to start or to load the page, or it found these cards. */
  datatype Browser = NoDriver | Loaded(cards: seq<LinkedInCard>)

  /** The job of one card; a card missing an element is skipped. */
  function LinkedInJob(card: LinkedInCard, location: string): Option<Posting> {
    if card.title.Some? && card.company.Some? && card.href.Some? then
      Some(Posting(Strip(card.title.value), Strip(card.company.value), location, card.href.value, "",
                   "LinkedIn", None, None))
    else None
  }

  /** The jobs of the cards, in card order. */
  function LinkedInJobs(cards: seq<LinkedInCard>, location: string): seq<Posting> {
    if cards == [] then []
    else
      var last := LinkedInJob(cards[|cards| - 1], location);
      LinkedInJobs(cards[..|cards| - 1], location) + (if last.Some? then [last.value] else [])
  }

  /**
   * At most one job per card; each is a LinkedIn job at the searched
   * location, and each card with all three elements gives one.
   */
  lemma {:induction false} LinkedInJobsProperties(cards: seq<LinkedInCard>, location: string)
    ensures |LinkedInJobs(cards, location)| <= |cards|
    ensures forall j :: j in LinkedInJobs(cards, location) ==>
              j.platform == "LinkedIn" && j.location == location && j.description == ""
    ensures (forall c :: c in cards ==> LinkedInJob(c, location).Some?) ==> |LinkedInJobs(cards, location)| == |cards|
  {
    if cards != [] {
      var init := cards[..|cards| - 1];
      assert forall c :: c in init ==> c in cards;
      LinkedInJobsProperties(init, location);
    }
  }

  /**
   * `LinkedInScraper.search_jobs`: loads the search page and turns the
   * first `limit` cards into jobs. `requested` is the page loaded, if any.
   */
  method LinkedInSearchJobs(title: string, location: string, limit: int, browser: Browser)
    returns (jobs: seq<Posting>, requested: seq<string>)
    ensures browser.NoDriver? ==> jobs == [] && requested == []
    ensures browser.Loaded? ==>
              jobs == LinkedInJobs(PyTake(browser.cards, limit), location) && requested == [LinkedInUrl(title, location)]
  {
    jobs, requested := [], [];
    if browser.NoDriver? {
      return;
    }
    requested := [LinkedInUrl(title, location)];
    var cards := PyTake(browser.cards, limit);
    var i := 0;
    while i < |cards|
      invariant 0 <= i <= |cards|
      invariant jobs == LinkedInJobs(cards[..i], location)
    {
      assert cards[..i + 1][..i] == cards[..i];
      var job := LinkedInJob(cards[i], location);
      if job.Some? {
        jobs := jobs + [job.value];
      }
      i := i + 1;
    }
    assert cards[..i] == cards;
  }

  /** LinkedIn returns at most `limit` jobs. */
  lemma LinkedInAtMostLimit(cards: seq<LinkedInCard>, limit: int, location: string)
    requires limit >= 0
    ensures |LinkedInJobs(PyTake(cards, limit), location)| <= limit
  {
    LinkedInJobsProperties(PyTake(cards, limit), location);
  }

  // ---------------------------------------------------------------------------
  // IndeedScraper.search_jobs

  /** An anchor element and its `data-jk` attribute. */
  datatype Anchor = Anchor(dataJk: Option<string>)

  /** A title element: its text and the first anchor inside it. */
  datatype TitleElement = TitleElement(text: string, anchor: Option<Anchor>)

  /**
   * One Indeed job card: what each `find` on it returns, `None` where
   * nothing matches. The three title and three company look-ups are listed
   * in the order they are tried.
   */
  datatype IndeedCard = IndeedCard(
    titleH2: Option<TitleElement>, titleLink: Option<TitleElement>, titleClassLike: Option<TitleElement>,
    companyName: Option<string>, companyTestId: Option<string>, companyClassLike: Option<string>,
    jkAnchor: Option<Anchor>, dataJk: Option<string>, location: Option<string>, snippet: Option<string>)

  /** The three `find_all` results on a page, in the order they are tried. */
  datatype IndeedPage = IndeedPage(beacons: seq<IndeedCard>, serpCards: seq<IndeedCard>, dataJkDivs: seq<IndeedCard>)

  /** What the request of one attempt ends with. */
  datatype Fetch = Reply(status: int, page: IndeedPage) | TimedOut | Raised

  const MAX_RETRIES: nat := 3

  /** `a or b or c` over found elements: an element is always truthy. */
  function FirstFound<T>(a: Option<T>, b: Option<T>, c: Option<T>): Option<T> {
    if a.Some? then a else if b.Some? then b else c
  }

  /** `a or b or c` over `find_all` results: the first non-empty list, else the last. */
  function Cards(page: IndeedPage): seq<IndeedCard> {
    if page.beacons != [] then page.beacons else if page.serpCards != [] then page.serpCards else page.dataJkDivs
  }

  /** The `job_id` of a card: from the title's anchor, else the card's `data-jk` anchor, else the card itself. */
  function IndeedJobId(card: IndeedCard, title: TitleElement): string {
    var link := if title.anchor.Some? then title.anchor else card.jkAnchor;
    if link.Some? then link.value.dataJk.GetOr("") else card.dataJk.GetOr("")
  }

  /** The job of one card: only a card with both a title and a company gives one. */
  function IndeedJob(card: IndeedCard, location: string): Option<Posting> {
    var title := FirstFound(card.titleH2, card.titleLink, card.titleClassLike);
    var company := FirstFound(card.companyName, card.companyTestId, card.companyClassLike);
    if title.Some? && company.Some? then
      var id := IndeedJobId(card, title.value);
      Some(Posting(Strip(title.value.text), Strip(company.value),
                   if card.location.Some? then Strip(card.location.value) else location,
                   if id != "" then INDEED_VIEW + id else "",
                   if card.snippet.Some? then Strip(card.snippet.value) else "",
                   "Indeed", None, None))
    else None
  }

  /** The jobs of the cards, in card order. */
  function IndeedJobs(cards: seq<IndeedCard>, location: string): seq<Posting> {
    if cards == [] then []
    else
      var last := IndeedJob(cards[|cards| - 1], location);
      IndeedJobs(cards[..|cards| - 1], location) + (if last.Some? then [last.value] else [])
  }

  /**
   * A card gives a job exactly when a title and a company were found; its
   * URL is the view page of the card's job id, or empty exactly when that id
   * is empty, and a card without a location element takes the searched location.
   */
  lemma IndeedJobShape(card: IndeedCard, location: string)
    ensures IndeedJob(card, location).Some? <==>
              FirstFound(card.titleH2, card.titleLink, card.titleClassLike).Some?
              && FirstFound(card.companyName, card.companyTestId, card.companyClassLike).Some?
    ensures IndeedJob(card, location).Some? ==>
              var j := IndeedJob(card, location).value;
              && j.platform == "Indeed"
              && (j.url == "" || exists id :: id != "" && j.url == INDEED_VIEW + id)
              && (card.location.None? ==> j.location == location)
    ensures IndeedJob(card, location).Some? ==>
              var id := IndeedJobId(card, FirstFound(card.titleH2, card.titleLink, card.titleClassLike).value);
              && (id != "" ==> IndeedJob(card, location).value.url == INDEED_VIEW + id)
              && (id == "" ==> IndeedJob(card, location).value.url == "")
  {
    if IndeedJob(card, location).Some? {
      var title := FirstFound(card.titleH2, card.titleLink, card.titleClassLike).value;
      var id := IndeedJobId(card, title);
      if id != "" {
        assert IndeedJob(card, location).value.url == INDEED_VIEW + id;
      }
    }
  }

  /** At most one job per card, each an Indeed job whose URL is a view page or empty. */
  lemma {:induction false} IndeedJobsProperties(cards: seq<IndeedCard>, location: string)
    ensures |IndeedJobs(cards, location)| <= |cards|
    ensures forall j :: j in IndeedJobs(cards, location) ==>
              j.platform == "Indeed" && (j.url == "" || exists id :: id != "" && j.url == INDEED_VIEW + id)
  {
    if cards != [] {
      IndeedJobsProperties(cards[..|cards| - 1], location);
      IndeedJobShape(cards[|cards| - 1], location);
    }
  }

  /** The reply of attempt `a`; attempts past the list raise. */
  function AttemptFetch(fetches: seq<Fetch>, a: nat): Fetch {
    if a < |fetches| then fetches[a] else Raised
  }

  /** A 200 reply with at least one card: the attempt that ends the retries early. */
  predicate Found(f: Fetch) {
    f.Reply? && f.status == 200 && Cards(f.page) != []
  }

  /** The attempt the retry loop ends on, looking from attempt `a`: the first that finds cards, else the last. */
  function FinalFrom(fetches: seq<Fetch>, a: nat): nat
    requires a < MAX_RETRIES
    decreases MAX_RETRIES - a
  {
    if a == MAX_RETRIES - 1 || Found(AttemptFetch(fetches, a)) then a else FinalFrom(fetches, a + 1)
  }

  function FinalAttempt(fetches: seq<Fetch>): nat {
    FinalFrom(fetches, 0)
  }

  /**
   * The retries end on the first attempt that finds cards, and only the
   * third attempt can end without finding any.
   */
  lemma FinalAttemptIsFirstFound(fetches: seq<Fetch>)
    ensures FinalAttempt(fetches) < MAX_RETRIES
    ensures forall a :: 0 <= a < FinalAttempt(fetches) ==> !Found(AttemptFetch(fetches, a))
    ensures FinalAttempt(fetches) < MAX_RETRIES - 1 ==> Found(AttemptFetch(fetches, FinalAttempt(fetches)))
  {
  }

  /** The sleep attempt `a` ends with, if any. */
  function Backoff(f: Fetch, a: nat): seq<nat> {
    if f.Reply? && f.status == 429 then [5 * (a + 1)]
    else if Found(f) || a >= MAX_RETRIES - 1 then []
    else [3]
  }

  /** The sleeps of attempts 0..n-1, in order. */
  function Backoffs(fetches: seq<Fetch>, n: nat): seq<nat> {
    if n == 0 then [] else Backoffs(fetches, n - 1) + Backoff(AttemptFetch(fetches, n - 1), n - 1)
  }

  /** What the search returns: the jobs of the first `limit` cards of the final reply when it is a 200. */
  function IndeedResult(fetches: seq<Fetch>, location: string, limit: int): seq<Posting> {
    var f := AttemptFetch(fetches, FinalAttempt(fetches));
    if f.Reply? && f.status == 200 then IndeedJobs(PyTake(Cards(f.page), limit), location) else []
  }

  /**
   * Every job comes from the one reply the retries end on, which found cards;
   * at most `limit` of them; each an Indeed job with a view-page or empty URL.
   */
  lemma IndeedResultProperties(fetches: seq<Fetch>, location: string, limit: int)
    ensures IndeedResult(fetches, location, limit) != [] ==> Found(AttemptFetch(fetches, FinalAttempt(fetches)))
    ensures limit >= 0 ==> |IndeedResult(fetches, location, limit)| <= limit
    ensures forall j :: j in IndeedResult(fetches, location, limit) ==>
              j.platform == "Indeed" && (j.url == "" || exists id :: id != "" && j.url == INDEED_VIEW + id)
  {
    var f := AttemptFetch(fetches, FinalAttempt(fetches));
    if f.Reply? && f.status == 200 {
      IndeedJobsProperties(PyTake(Cards(f.page), limit), location);
    }
  }

  /** The sum of a list of sleeps. */
  function Total(xs: seq<nat>): nat {
    if xs == [] then 0 else Total(xs[..|xs| - 1]) + xs[|xs| - 1]
  }

  lemma {:induction false} TotalAppend(xs: seq<nat>, ys: seq<nat>)
    ensures Total(xs + ys) == Total(xs) + Total(ys)
    decreases |ys|
  {
    if ys != [] {
      var zs := xs + ys;
      assert zs[..|zs| - 1] == xs + ys[..|ys| - 1];
      assert zs[|zs| - 1] == ys[|ys| - 1];
      TotalAppend(xs, ys[..|ys| - 1]);
    } else {
      assert xs + ys == xs;
    }
  }

  /** 5 + 10 + … + 5·n: the longest the first `n` attempts can sleep. */
  function LongestBackoff(n: nat): nat {
    if n == 0 then 0 else LongestBackoff(n - 1) + 5 * n
  }

  /** Attempt `a` sleeps at most 5·(a+1) seconds, so the first `n` attempts at most 5 + … + 5·n. */
  lemma {:induction false} BackoffsBound(fetches: seq<Fetch>, n: nat)
    ensures Total(Backoffs(fetches, n)) <= LongestBackoff(n)
  {
    if n > 0 {
      BackoffsBound(fetches, n - 1);
      var b := Backoff(AttemptFetch(fetches, n - 1), n - 1);
      TotalAppend(Backoffs(fetches, n - 1), b);
      BackoffAtMost(AttemptFetch(fetches, n - 1), n - 1);
    }
  }

  /** Whatever the replies, the retries sleep at most 30 seconds before the final 2. */
  lemma RetriesSleepAtMost30(fetches: seq<Fetch>, n: nat)
    requires n <= MAX_RETRIES
    ensures Total(Backoffs(fetches, n)) <= 30
  {
    BackoffsBound(fetches, n);
    LongestBackoffOfRetries(n);
  }

  lemma LongestBackoffOfRetries(n: nat)
    requires n <= MAX_RETRIES
    ensures LongestBackoff(n) <= 30
  {
    assert LongestBackoff(0) == 0 && LongestBackoff(1) == 5 && LongestBackoff(2) == 15 && LongestBackoff(3) == 30;
  }

  lemma BackoffAtMost(f: Fetch, a: nat)
    ensures Total(Backoff(f, a)) <= 5 * (a + 1)
  {
    var b := Backoff(f, a);
    if b != [] {
      assert b[..|b| - 1] == [];
    }
  }

  /**
   * `IndeedScraper.search_jobs`: up to three attempts at the search page.
   * A 200 reply with cards ends the loop; a 200 with none retries after 3
   * seconds unless it is the last attempt, which ends the loop; a 429 waits
   * 5·(attempt+1) seconds; another status, a timeout or any other error
   * waits 3 seconds unless it is the last attempt. A final 2-second sleep follows.
   */
  method IndeedSearchJobs(title: string, location: string, limit: int, fetches: seq<Fetch>)
    returns (jobs: seq<Posting>, requests: seq<string>, sleeps: seq<nat>)
    ensures |requests| == FinalAttempt(fetches) + 1
    ensures forall r :: r in requests ==> r == IndeedUrl(title, location)
    ensures jobs == IndeedResult(fetches, location, limit)
    ensures sleeps == Backoffs(fetches, |requests|) + [2]
  {
    jobs, requests, sleeps := [], [], [];
    var attempt := 0;
    while attempt < MAX_RETRIES
      invariant 0 <= attempt <= MAX_RETRIES
      invariant attempt < MAX_RETRIES ==> FinalFrom(fetches, attempt) == FinalAttempt(fetches)
      invariant attempt == MAX_RETRIES ==> FinalAttempt(fetches) == MAX_RETRIES - 1
                                           && !(AttemptFetch(fetches, MAX_RETRIES - 1).Reply?
                                                && AttemptFetch(fetches, MAX_RETRIES - 1).status == 200)
      invariant |requests| == attempt && forall r :: r in requests ==> r == IndeedUrl(title, location)
      invariant jobs == [] && sleeps == Backoffs(fetches, attempt)
      decreases MAX_RETRIES - attempt
    {
      requests := requests + [IndeedUrl(title, location)];
      var done, pause;
      jobs, done, pause := TryOnce(AttemptFetch(fetches, attempt), attempt, location, limit);
      sleeps := sleeps + pause;
      if done {
        break;
      }
      attempt := attempt + 1;
    }
    sleeps := sleeps + [2];
  }

  /**
   * One attempt's reply: a 200 with cards, or a 200 on the last attempt,
   * ends the retries with the jobs of its first `limit` cards; every other
   * reply ends the attempt with its back-off.
   */
  method TryOnce(f: Fetch, attempt: nat, location: string, limit: int)
    returns (jobs: seq<Posting>, done: bool, pause: seq<nat>)
    requires attempt < MAX_RETRIES
    ensures done <==> f.Reply? && f.status == 200 && (Found(f) || attempt == MAX_RETRIES - 1)
    ensures done ==> jobs == IndeedJobs(PyTake(Cards(f.page), limit), location)
    ensures !done ==> jobs == []
    ensures pause == Backoff(f, attempt)
  {
    jobs, done, pause := [], false, [];
    match f {
    case Reply(status, page) =>
      if status == 200 {
        var cards := Cards(page);
        if cards == [] && attempt < MAX_RETRIES - 1 {
          pause := [3];
        } else {
          jobs := CollectIndeedCards(PyTake(cards, limit), location);
          done := true;
        }
      } else if status == 429 {
        pause := [5 * (attempt + 1)];
      } else if attempt < MAX_RETRIES - 1 {
        pause := [3];
      }
    case TimedOut =>
      if attempt < MAX_RETRIES - 1 {
        pause := [3];
      }
    case Raised =>
      if attempt < MAX_RETRIES - 1 {
        pause := [3];
      }
    }
  }

  /** The card loop of one 200 reply. */
  method CollectIndeedCards(cards: seq<IndeedCard>, location: string) returns (jobs: seq<Posting>)
    ensures jobs == IndeedJobs(cards, location)
  {
    jobs := [];
    var i := 0;
    while i < |cards|
      invariant 0 <= i <= |cards|
      invariant jobs == IndeedJobs(cards[..i], location)
    {
      assert cards[..i + 1][..i] == cards[..i];
      var job := IndeedJob(cards[i], location);
      if job.Some? {
        jobs := jobs + [job.value];
      }
      i := i + 1;
    }
    assert cards[..i] == cards;
  }

  // ---------------------------------------------------------------------------
  // JobAggregator

  /** The scrapers' dictionary keys, in the order `search_all_platforms` visits them. */
  const PLATFORMS := ["linkedin", "indeed", "glassdoor", "ziprecruiter"]

  /** `ENABLED_PLATFORMS.get(name)` is truthy. */
  predicate Enabled(enabled: map<string, bool>, name: string) {
    name in enabled && enabled[name]
  }

  /** The platforms of `names` that have a scraper, in order. */
  function EnabledPlatforms(enabled: map<string, bool>, names: seq<string>): seq<string> {
    if names == [] then []
    else
      EnabledPlatforms(enabled, names[..|names| - 1])
      + (if Enabled(enabled, names[|names| - 1]) then [names[|names| - 1]] else [])
  }

  /** The scraped platforms are the enabled ones, each once, in the order of the dictionary. */
  lemma {:induction false} EnabledPlatformsProperties(enabled: map<string, bool>, names: seq<string>)
    ensures forall p :: p in EnabledPlatforms(enabled, names) <==> p in names && Enabled(enabled, p)
    ensures |EnabledPlatforms(enabled, names)| <= |names|
  {
    if names != [] {
      var init := names[..|names| - 1];
      EnabledPlatformsProperties(enabled, init);
      assert names == init + [names[|names| - 1]];
    }
  }

  /** With the shipped settings, all four platforms are scraped, in dictionary order. */
  lemma AllPlatformsScraped()
    ensures EnabledPlatforms(Config.ENABLED_PLATFORMS, PLATFORMS) == PLATFORMS
  {
    var e := Config.ENABLED_PLATFORMS;
    assert PLATFORMS[..0] == [];
    assert EnabledPlatforms(e, PLATFORMS[..1]) == ["linkedin"] by {
      assert PLATFORMS[..1][..0] == [];
    }
    assert EnabledPlatforms(e, PLATFORMS[..2]) == ["linkedin", "indeed"] by {
      assert PLATFORMS[..2][..1] == PLATFORMS[..1];
    }
    assert EnabledPlatforms(e, PLATFORMS[..3]) == ["linkedin", "indeed", "glassdoor"] by {
      assert PLATFORMS[..3][..2] == PLATFORMS[..2];
    }
    assert PLATFORMS[..3] == PLATFORMS[..|PLATFORMS| - 1];
  }

  /** The inputs one `search_all_platforms` call consumes: the API replies and each scraper's. */
  datatype ScoutInputs = ScoutInputs(apiReplies: seq<PageResponse>, linkedin: Browser, indeed: seq<Fetch>)

  /** What a platform's scraper returns; Glassdoor and ZipRecruiter always return nothing. */
  function ScraperJobs(platform: string, location: string, limit: int, inputs: ScoutInputs): seq<Posting> {
    if platform == "linkedin" then
      (if inputs.linkedin.Loaded? then LinkedInJobs(PyTake(inputs.linkedin.cards, limit), location) else [])
    else if platform == "indeed" then IndeedResult(inputs.indeed, location, limit)
    else []
  }

  /** Everything the scrapers of `platforms` return, platform after platform. */
  function Scraped(platforms: seq<string>, location: string, limit: int, inputs: ScoutInputs): seq<Posting> {
    if platforms == [] then []
    else Scraped(platforms[..|platforms| - 1], location, limit, inputs)
         + ScraperJobs(platforms[|platforms| - 1], location, limit, inputs)
  }

  lemma ScrapedNext(api: seq<Posting>, platforms: seq<string>, i: nat, location: string, limit: int,
                    inputs: ScoutInputs)
    requires i < |platforms|
    ensures api + Scraped(platforms[..i + 1], location, limit, inputs)
         == api + Scraped(platforms[..i], location, limit, inputs) + ScraperJobs(platforms[i], location, limit, inputs)
  {
    assert platforms[..i + 1][..i] == platforms[..i];
  }

  /** A scraper that runs returns at most `limit` jobs. */
  lemma ScraperJobsAtMostLimit(platform: string, location: string, limit: int, inputs: ScoutInputs)
    requires limit >= 0
    ensures |ScraperJobs(platform, location, limit, inputs)| <= limit
  {
    if platform == "linkedin" && inputs.linkedin.Loaded? {
      LinkedInAtMostLimit(inputs.linkedin.cards, limit, location);
    } else if platform == "indeed" {
      IndeedResultProperties(inputs.indeed, location, limit);
    }
  }

  /**
   * `scraper.search_jobs(job_title, location, limit=limit_per_platform)` for
   * the scraper of `platform`; Glassdoor and ZipRecruiter return nothing.
   */
  method RunScraper(platform: string, title: string, location: string, limit: int, inputs: ScoutInputs)
    returns (jobs: seq<Posting>)
    ensures jobs == ScraperJobs(platform, location, limit, inputs)
  {
    jobs := [];
    if platform == "linkedin" {
      var loaded;
      jobs, loaded := LinkedInSearchJobs(title, location, limit, inputs.linkedin);
    } else if platform == "indeed" {
      var requests, sleeps;
      jobs, requests, sleeps := IndeedSearchJobs(title, location, limit, inputs.indeed);
    }
  }

  /**
   * The jobs one platform's scraper contributes: its search, then the seen
   * filter, which marks each new URL in the store at once.
   */
  method ScoutPlatform(db: ApplicationDatabase, platform: string, title: string, location: string, limit: int,
                       inputs: ScoutInputs, now: string, ghost known0: set<string>, ghost fetched: seq<Posting>,
                       allJobs: seq<Posting>)
    returns (allJobs': seq<Posting>)
    requires Tracks(db, known0, fetched, allJobs)
    modifies db
    ensures Tracks(db, known0, fetched + ScraperJobs(platform, location, limit, inputs), allJobs')
    ensures db.OtherTables() == old(db.OtherTables())
  {
    var jobs := RunScraper(platform, title, location, limit, inputs);
    var kept := KeepUnseen(db, jobs, now);
    FilterUnseenAppend(known0, fetched, jobs);
    UrlSetAppend(fetched, jobs);
    allJobs' := allJobs + kept;
  }

  /**
   * The scraper loop of `search_all_platforms`: each platform in turn, its
   * jobs through the seen filter after everything fetched before.
   */
  method ScoutPlatforms(db: ApplicationDatabase, platforms: seq<string>, title: string, location: string, limit: int,
                        inputs: ScoutInputs, now: string, ghost known0: set<string>, ghost fetched: seq<Posting>,
                        allJobs: seq<Posting>)
    returns (allJobs': seq<Posting>)
    requires Tracks(db, known0, fetched, allJobs)
    modifies db
    ensures Tracks(db, known0, fetched + Scraped(platforms, location, limit, inputs), allJobs')
    ensures db.OtherTables() == old(db.OtherTables())
  {
    allJobs' := allJobs;
    var i := 0;
    assert fetched + Scraped(platforms[..0], location, limit, inputs) == fetched;
    while i < |platforms|
      invariant 0 <= i <= |platforms|
      invariant Tracks(db, known0, fetched + Scraped(platforms[..i], location, limit, inputs), allJobs')
      invariant db.OtherTables() == old(db.OtherTables())
    {
      ScrapedNext(fetched, platforms, i, location, limit, inputs);
      allJobs' := ScoutPlatform(db, platforms[i], title, location, limit, inputs, now, known0,
                                fetched + Scraped(platforms[..i], location, limit, inputs), allJobs');
      i := i + 1;
    }
    assert platforms[..i] == platforms;
  }

  class JobAggregator {
    const useApi: bool
    /** The keys whose scraper is not `None`, in dictionary order. */
    const platforms: seq<string>
    const apiSearcher: Option<JobApiSearch>

    /**
     * `JobAggregator(use_api)`: a scraper for each enabled platform, and an
     * API searcher built from the environment key when `useApi` holds.
     */
    constructor (useApi: bool, enabled: map<string, bool>, envKey: string)
      ensures this.useApi == useApi && platforms == EnabledPlatforms(enabled, PLATFORMS)
      ensures apiSearcher.Some? <==> useApi
      ensures apiSearcher.Some? ==> apiSearcher.value.apiKey == envKey
    {
      this.useApi := useApi;
      platforms := EnabledPlatforms(enabled, PLATFORMS);
      if useApi {
        var searcher := new JobApiSearch(None, envKey);
        apiSearcher := Some(searcher);
      } else {
        apiSearcher := None;
      }
    }

    /** The API jobs one call fetches: three pages when there is a searcher with a key. */
    ghost function ApiFetched(location: string, replies: seq<PageResponse>): seq<Posting> {
      if apiSearcher.Some? && apiSearcher.value.apiKey != "" then Fetched(3, replies, location) else []
    }

    /** Everything one call fetches: the API pages, then each scraper's jobs. */
    ghost function Everything(location: string, limit: int, inputs: ScoutInputs): seq<Posting> {
      ApiFetched(location, inputs.apiReplies) + Scraped(platforms, location, limit, inputs)
    }

    /**
     * `search_all_platforms` with the corrected API search: the API's own
     * walk over three pages, then each scraper in turn, each job kept only
     * when its URL is new and marked at once. The result is the seen filter
     * over everything fetched.
     */
    method SearchAllPlatforms(title: string, location: string, limitPerPlatform: int,
                              db: ApplicationDatabase, inputs: ScoutInputs, now: string)
      returns (allJobs: seq<Posting>)
      requires db.Valid()
      modifies db
      ensures Tracks(db, old(db.Known()), Everything(location, limitPerPlatform, inputs), allJobs)
      ensures db.OtherTables() == old(db.OtherTables())
    {
      ghost var known0 := db.Known();
      allJobs := SearchApi(title, location, db, inputs.apiReplies, now);
      allJobs := ScoutPlatforms(db, platforms, title, location, limitPerPlatform, inputs, now, known0,
                                ApiFetched(location, inputs.apiReplies), allJobs);
    }

    /** The API step: three pages of the searcher's walk, when there is a searcher. */
    method SearchApi(title: string, location: string, db: ApplicationDatabase, replies: seq<PageResponse>,
                     now: string)
      returns (jobs: seq<Posting>)
      requires db.Valid()
      modifies db
      ensures Tracks(db, old(db.Known()), ApiFetched(location, replies), jobs)
      ensures db.OtherTables() == old(db.OtherTables())
    {
      jobs := [];
      if apiSearcher.Some? {
        var requests;
        jobs, requests := apiSearcher.value.SearchJobs(title, location, 3, false, db, replies, now);
      }
    }
  }

  /**
   * The API part of `search_all_platforms` as written: the call raises the
   * name error whenever a key is set, the handler swallows it, and nothing
   * is added; without a key the call returns nothing.
   */
  function ApiJobsAsWritten(apiKey: string): seq<Posting> {
    match SearchJobsAsWritten(apiKey)
    case Returned(jobs) => jobs
    case NameErrorRaised => []
  }

  /** As written, the API never contributes a job to `search_all_platforms`. */
  lemma AggregatorGetsNoApiJobs(apiKey: string)
    ensures ApiJobsAsWritten(apiKey) == []
  {
    AsWrittenNeverSearches(apiKey);
  }

  // ---------------------------------------------------------------------------
  // Module-level search_jobs

  const LIMIT_PER_PLATFORM := 10

  /** The inputs of the search of title `t` at location `l`; a pair past the lists finds nothing. */
  function InputsFor(inputs: seq<seq<ScoutInputs>>, t: nat, l: nat): ScoutInputs {
    if t < |inputs| && l < |inputs[t]| then inputs[t][l] else ScoutInputs([], NoDriver, [])
  }

  /**
   * Everything one search of the module-level grid fetches: the API's three
   * pages when the environment key is set, then each configured scraper.
   */
  function ScoutFetched(envKey: string, location: string, inputs: ScoutInputs): seq<Posting> {
    (if envKey != "" then Fetched(3, inputs.apiReplies, location) else [])
    + Scraped(EnabledPlatforms(Config.ENABLED_PLATFORMS, PLATFORMS), location, LIMIT_PER_PLATFORM, inputs)
  }

  /** What the searches for title number `t` at the first `n` locations fetch, location by location. */
  function ScoutRowFetched(envKey: string, locations: seq<string>, n: nat, t: nat, inputs: seq<seq<ScoutInputs>>)
    : seq<Posting>
    requires n <= |locations|
  {
    if n == 0 then []
    else ScoutRowFetched(envKey, locations, n - 1, t, inputs) + ScoutFetched(envKey, locations[n - 1], InputsFor(inputs, t, n - 1))
  }

  /** What the searches for the first `m` titles fetch: title by title, and for each title location by location. */
  function ScoutGridFetched(envKey: string, m: nat, locations: seq<string>, inputs: seq<seq<ScoutInputs>>): seq<Posting> {
    if m == 0 then []
    else ScoutGridFetched(envKey, m - 1, locations, inputs) + ScoutRowFetched(envKey, locations, |locations|, m - 1, inputs)
  }

  /** The search at location `l` extends what the grid has fetched up to it. */
  lemma ScoutRowFetchedNext(envKey: string, before: seq<Posting>, locations: seq<string>, l: nat, t: nat,
                            inputs: seq<seq<ScoutInputs>>)
    requires l < |locations|
    ensures before + ScoutRowFetched(envKey, locations, l + 1, t, inputs)
            == before + ScoutRowFetched(envKey, locations, l, t, inputs) + ScoutFetched(envKey, locations[l], InputsFor(inputs, t, l))
  {
    SeqAssoc(before, ScoutRowFetched(envKey, locations, l, t, inputs), ScoutFetched(envKey, locations[l], InputsFor(inputs, t, l)));
  }

  /** An aggregator built as module-level `search_jobs` builds it. */
  predicate Configured(aggregator: JobAggregator, envKey: string) {
    && aggregator.platforms == EnabledPlatforms(Config.ENABLED_PLATFORMS, PLATFORMS)
    && aggregator.apiSearcher.Some? && aggregator.apiSearcher.value.apiKey == envKey
  }

  /**
   * Module-level `search_jobs`: one aggregator over the configured
   * platforms, every title at every location, then one job per non-empty
   * URL. `allJobs` is what the searches return together: the seen filter
   * over everything the grid fetched, which the store has marked. Since
   * every call already dropped URLs the store had seen, the jobs are
   * distinct and the dictionary keeps each in its place.
   */
  method SearchJobs(titles: seq<string>, locations: seq<string>, db: ApplicationDatabase, envKey: string,
                    inputs: seq<seq<ScoutInputs>>, now: string)
    returns (unique: seq<Posting>, ghost allJobs: seq<Posting>)
    requires db.Valid()
    modifies db
    ensures db.Valid()
    ensures allJobs == FilterUnseen(old(db.Known()), ScoutGridFetched(envKey, |titles|, locations, inputs))
    ensures db.Known() == old(db.Known()) + UrlSet(ScoutGridFetched(envKey, |titles|, locations, inputs))
    ensures unique == CollapseByUrl(allJobs) && unique == FilterUnseen({""}, allJobs)
    ensures forall j :: j in unique ==> j.url != "" && j.url !in old(db.Known())
    ensures DistinctUrls(unique)
    ensures db.OtherTables() == old(db.OtherTables())
  {
    var aggregator := new JobAggregator(true, Config.ENABLED_PLATFORMS, envKey);
    ghost var known0 := db.Known();
    ghost var fetched: seq<Posting> := [];
    var collected: seq<Posting> := [];
    var t := 0;
    while t < |titles|
      invariant 0 <= t <= |titles|
      invariant fetched == ScoutGridFetched(envKey, t, locations, inputs)
      invariant Tracks(db, known0, fetched, collected)
      invariant db.OtherTables() == old(db.OtherTables())
    {
      collected, fetched := ScoutRow(aggregator, envKey, titles[t], t, locations, db, inputs, now, known0,
                                     collected, fetched);
      t := t + 1;
    }
    FilterUnseenFresh(known0, fetched);
    CollapseDistinct(collected);
    unique := CollapseByUrl(collected);
    allJobs := collected;
    FilterUnseenFresh({""}, collected);
  }

  /** The inner loop of module-level `search_jobs`: title number `t` searched at every location in turn. */
  method ScoutRow(aggregator: JobAggregator, ghost envKey: string, title: string, t: nat, locations: seq<string>,
                  db: ApplicationDatabase, inputs: seq<seq<ScoutInputs>>, now: string, ghost known0: set<string>,
                  collected: seq<Posting>, ghost fetched: seq<Posting>)
    returns (collected': seq<Posting>, ghost fetched': seq<Posting>)
    requires Configured(aggregator, envKey)
    requires fetched == ScoutGridFetched(envKey, t, locations, inputs)
    requires Tracks(db, known0, fetched, collected)
    modifies db
    ensures fetched' == ScoutGridFetched(envKey, t + 1, locations, inputs)
    ensures Tracks(db, known0, fetched', collected')
    ensures db.OtherTables() == old(db.OtherTables())
  {
    collected', fetched' := collected, fetched;
    assert fetched' == fetched + ScoutRowFetched(envKey, locations, 0, t, inputs);
    var l := 0;
    while l < |locations|
      invariant 0 <= l <= |locations|
      invariant fetched' == fetched + ScoutRowFetched(envKey, locations, l, t, inputs)
      invariant Tracks(db, known0, fetched', collected')
      invariant db.OtherTables() == old(db.OtherTables())
    {
      ScoutRowFetchedNext(envKey, fetched, locations, l, t, inputs);
      collected', fetched' := ScoutOnce(aggregator, envKey, title, locations[l], db, InputsFor(inputs, t, l), now,
                                        known0, collected', fetched');
      l := l + 1;
    }
  }

  /** One search of the grid: its jobs join those collected, what it fetched joins what was fetched. */
  method ScoutOnce(aggregator: JobAggregator, ghost envKey: string, title: string, location: string,
                   db: ApplicationDatabase, inputs: ScoutInputs, now: string, ghost known0: set<string>,
                   collected: seq<Posting>, ghost fetched: seq<Posting>)
    returns (collected': seq<Posting>, ghost fetched': seq<Posting>)
    requires Configured(aggregator, envKey)
    requires Tracks(db, known0, fetched, collected)
    modifies db
    ensures fetched' == fetched + ScoutFetched(envKey, location, inputs)
    ensures Tracks(db, known0, fetched', collected')
    ensures db.OtherTables() == old(db.OtherTables())
  {
    ghost var more := aggregator.Everything(location, LIMIT_PER_PLATFORM, inputs);
    assert more == ScoutFetched(envKey, location, inputs);
    var jobs := aggregator.SearchAllPlatforms(title, location, LIMIT_PER_PLATFORM, db, inputs, now);
    FilterUnseenAppend(known0, fetched, more);
    UrlSetAppend(fetched, more);
    collected' := collected + jobs;
    fetched' := fetched + more;
  }
}
