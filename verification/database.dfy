/**
 * The application-tracking store (`ApplicationDatabase`). The four SQLite
 * tables are sequences of rows in insertion order, each with the counter
 * that AUTOINCREMENT keeps for it; the UNIQUE constraints of the schema
 * are the invariant `Valid`. Timestamps are given as strings by the caller.
 */
module Database {
  import opened Wrappers

  /** The default `status` column of a new application. */
  const SUBMITTED := "submitted"

  datatype Application = Application(
    id: nat, company: string, position: string, jobUrl: string, platform: string,
    appliedDate: string, status: string, resumePath: string, jobDescription: string,
    matchScore: int, notes: Option<string>)

  datatype HistoryRow = HistoryRow(id: nat, applicationId: int, status: string, updatedDate: string,
                                   notes: Option<string>)

  datatype DiscoveredJob = DiscoveredJob(id: nat, jobUrl: string, discoveredDate: string)

  datatype SearchTerm = SearchTerm(id: nat, term: string, termType: string, isActive: bool)

  /** `get_stats` without the calendar-dependent `this_week` count. */
  datatype Stats = Stats(total: nat, byStatus: map<string, nat>, byPlatform: map<string, nat>)

  // ---------------------------------------------------------------------------
  // Columns and constraints

  function ApplicationUrls(rows: seq<Application>): (urls: seq<string>)
    ensures |urls| == |rows| && forall i :: 0 <= i < |rows| ==> urls[i] == rows[i].jobUrl
  {
    seq(|rows|, i requires 0 <= i < |rows| => rows[i].jobUrl)
  }

  function DiscoveredUrls(rows: seq<DiscoveredJob>): (urls: seq<string>)
    ensures |urls| == |rows| && forall i :: 0 <= i < |rows| ==> urls[i] == rows[i].jobUrl
  {
    seq(|rows|, i requires 0 <= i < |rows| => rows[i].jobUrl)
  }

  function TermKeys(rows: seq<SearchTerm>): (keys: seq<(string, string)>)
    ensures |keys| == |rows| && forall i :: 0 <= i < |rows| ==> keys[i] == (rows[i].term, rows[i].termType)
  {
    seq(|rows|, i requires 0 <= i < |rows| => (rows[i].term, rows[i].termType))
  }

  /** UNIQUE(job_url) on `applications`. */
  predicate UniqueApplicationUrls(rows: seq<Application>) {
    forall i, j :: 0 <= i < j < |rows| ==> rows[i].jobUrl != rows[j].jobUrl
  }

  /** UNIQUE(job_url) on `discovered_jobs`. */
  predicate UniqueDiscoveredUrls(rows: seq<DiscoveredJob>) {
    forall i, j :: 0 <= i < j < |rows| ==> rows[i].jobUrl != rows[j].jobUrl
  }

  /** UNIQUE(term, term_type) on `search_terms`. */
  predicate UniqueTermKeys(rows: seq<SearchTerm>) {
    forall i, j :: 0 <= i < j < |rows| ==> rows[i].term != rows[j].term || rows[i].termType != rows[j].termType
  }

  /**
   * The AUTOINCREMENT ids of `applications`: increasing in row order, the
   * last never above the table's counter, so the next id is new.
   */
  predicate IdsBelow(rows: seq<Application>, counter: nat) {
    && (forall i, j :: 0 <= i < j < |rows| ==> rows[i].id < rows[j].id)
    && (|rows| > 0 ==> rows[|rows| - 1].id <= counter)
  }

  /** The values of one column, e.g. `status` or `platform`, in row order. */
  function Column(rows: seq<Application>, f: Application -> string): (c: seq<string>)
    ensures |c| == |rows|
    ensures forall i :: 0 <= i < |rows| ==> c[i] == f(rows[i])
  {
    if rows == [] then [] else Column(rows[..|rows| - 1], f) + [f(rows[|rows| - 1])]
  }

  function StatusOf(a: Application): string { a.status }

  function PlatformOf(a: Application): string { a.platform }

  /** The map with the count of `v` raised by one. */
  function Increment(m: map<string, nat>, v: string): map<string, nat> {
    m[v := (if v in m then m[v] else 0) + 1]
  }

  /** `GROUP BY` with `COUNT(*)`: how often each value occurs. */
  function CountBy(values: seq<string>): (m: map<string, nat>)
    ensures forall v :: v in m <==> v in values
    ensures forall v :: v in m ==> m[v] == multiset(values)[v]
  {
    if values == [] then map[]
    else
      var m := CountBy(values[..|values| - 1]);
      var v := values[|values| - 1];
      assert values == values[..|values| - 1] + [v];
      Increment(m, v)
  }

  /** `SELECT term FROM search_terms WHERE term_type = ? AND is_active = 1`, in row order. */
  function ActiveTerms(rows: seq<SearchTerm>, termType: string): (r: seq<string>)
    ensures forall t :: t in r <==> exists i :: 0 <= i < |rows| && rows[i].term == t && rows[i].termType == termType && rows[i].isActive
  {
    if rows == [] then []
    else
      var last := rows[|rows| - 1];
      assert forall i :: 0 <= i < |rows| - 1 ==> rows[..|rows| - 1][i] == rows[i];
      ActiveTerms(rows[..|rows| - 1], termType) + (if last.termType == termType && last.isActive then [last.term] else [])
  }

  /** `DELETE FROM search_terms WHERE term = ?`. */
  function WithoutTerm(rows: seq<SearchTerm>, term: string): (r: seq<SearchTerm>)
    ensures forall x :: x in r <==> x in rows && x.term != term
    ensures |r| <= |rows|
  {
    if rows == [] then []
    else
      var last := rows[|rows| - 1];
      assert rows == rows[..|rows| - 1] + [last];
      WithoutTerm(rows[..|rows| - 1], term) + (if last.term != term then [last] else [])
  }

  /** `INSERT OR IGNORE INTO discovered_jobs`: a URL already present leaves the table as it was. */
  function InsertDiscovered(rows: seq<DiscoveredJob>, url: string, date: string, id: nat): seq<DiscoveredJob> {
    if url in DiscoveredUrls(rows) then rows else rows + [DiscoveredJob(id, url, date)]
  }

  /** `INSERT OR IGNORE INTO search_terms`: a (term, term_type) pair already present is ignored. */
  function InsertTerm(rows: seq<SearchTerm>, term: string, termType: string, id: nat): seq<SearchTerm> {
    if (term, termType) in TermKeys(rows) then rows else rows + [SearchTerm(id, term, termType, true)]
  }

  /** `UPDATE applications SET status = ? WHERE id = ?`. */
  function WithStatus(rows: seq<Application>, id: int, status: string): (r: seq<Application>)
    ensures |r| == |rows|
    ensures forall i :: 0 <= i < |rows| ==> r[i] == (if rows[i].id == id then rows[i].(status := status) else rows[i])
  {
    if rows == [] then []
    else
      var last := rows[|rows| - 1];
      WithStatus(rows[..|rows| - 1], id, status) + [if last.id == id then last.(status := status) else last]
  }

  class ApplicationDatabase {
    var applications: seq<Application>
    var statusHistory: seq<HistoryRow>
    var discoveredJobs: seq<DiscoveredJob>
    var searchTerms: seq<SearchTerm>
    /** The `sqlite_sequence` counters: the largest id each table has handed out. */
    var applicationSeq: nat
    var historySeq: nat
    var discoveredSeq: nat
    var termSeq: nat

    /** The schema's UNIQUE constraints, and the AUTOINCREMENT ids of `applications`. */
    predicate Valid()
      reads this
    {
      && UniqueApplicationUrls(applications)
      && UniqueDiscoveredUrls(discoveredJobs)
      && UniqueTermKeys(searchTerms)
      && IdsBelow(applications, applicationSeq)
    }

    /** Every URL applied to or discovered: what `job_seen` looks for. */
    function Known(): set<string>
      reads this
    {
      (set a | a in applications :: a.jobUrl) + (set d | d in discoveredJobs :: d.jobUrl)
    }

    /** The tables that recording discovered jobs never writes. */
    function OtherTables(): (seq<Application>, seq<HistoryRow>, seq<SearchTerm>)
      reads this
    {
      (applications, statusHistory, searchTerms)
    }

    /** `ApplicationDatabase(db_path)` on a new database file: `init_database` creates four empty tables. */
    constructor ()
      ensures Valid()
      ensures applications == [] && statusHistory == [] && discoveredJobs == [] && searchTerms == []
    {
      applications := [];
      statusHistory := [];
      discoveredJobs := [];
      searchTerms := [];
      applicationSeq := 0;
      historySeq := 0;
      discoveredSeq := 0;
      termSeq := 0;
    }

    /**
     * `add_application`: a URL already applied to violates UNIQUE(job_url),
     * so nothing is written and the result is `None`; otherwise the row is
     * inserted with status 'submitted' together with one 'submitted' history row.
     */
    method AddApplication(company: string, position: string, jobUrl: string, platform: string,
                          resumePath: string, jobDescription: string, matchScore: int,
                          notes: Option<string>, now: string) returns (appId: Option<nat>)
      requires Valid()
      modifies this
      ensures Valid()
      ensures jobUrl in ApplicationUrls(old(applications)) ==>
                appId == None && applications == old(applications) && statusHistory == old(statusHistory)
                && applicationSeq == old(applicationSeq) && historySeq == old(historySeq)
      ensures jobUrl !in ApplicationUrls(old(applications)) ==>
                && appId == Some(old(applicationSeq) + 1)
                && applications == old(applications) + [Application(appId.value, company, position, jobUrl, platform,
                                                                    now, SUBMITTED, resumePath, jobDescription,
                                                                    matchScore, notes)]
                && statusHistory == old(statusHistory) + [HistoryRow(old(historySeq) + 1, appId.value, SUBMITTED, now, None)]
      ensures appId.Some? ==> forall i :: 0 <= i < |old(applications)| ==> old(applications)[i].id < appId.value
      ensures discoveredJobs == old(discoveredJobs) && searchTerms == old(searchTerms)
      ensures discoveredSeq == old(discoveredSeq) && termSeq == old(termSeq)
    {
      if jobUrl in ApplicationUrls(applications) {
        return None;
      }
      var id := applicationSeq + 1;
      var row := Application(id, company, position, jobUrl, platform, now, SUBMITTED,
                             resumePath, jobDescription, matchScore, notes);
      AppendApplicationKeepsInvariant(applications, applicationSeq, row);
      applicationSeq := id;
      applications := applications + [row];
      historySeq := historySeq + 1;
      statusHistory := statusHistory + [HistoryRow(historySeq, id, SUBMITTED, now, None)];
      appId := Some(id);
    }

    /** `application_exists`: some application row has this URL. */
    method ApplicationExists(jobUrl: string) returns (found: bool)
      ensures found <==> exists i :: 0 <= i < |applications| && applications[i].jobUrl == jobUrl
    {
      found := jobUrl in ApplicationUrls(applications);
    }

    /** `job_seen`: the URL was applied to or discovered before. */
    method JobSeen(jobUrl: string) returns (seen: bool)
      ensures seen <==> ((exists i :: 0 <= i < |applications| && applications[i].jobUrl == jobUrl)
                         || (exists i :: 0 <= i < |discoveredJobs| && discoveredJobs[i].jobUrl == jobUrl))
      ensures seen <==> jobUrl in Known()
    {
      if jobUrl in ApplicationUrls(applications) {
        return true;
      }
      seen := jobUrl in DiscoveredUrls(discoveredJobs);
    }

    /** `add_discovered_job`: INSERT OR IGNORE of the URL. */
    method AddDiscoveredJob(jobUrl: string, now: string)
      requires Valid()
      modifies this
      ensures Valid()
      ensures discoveredJobs == InsertDiscovered(old(discoveredJobs), jobUrl, now, old(discoveredSeq) + 1)
      ensures discoveredSeq == if jobUrl in DiscoveredUrls(old(discoveredJobs)) then old(discoveredSeq) else old(discoveredSeq) + 1
      ensures Known() == old(Known()) + {jobUrl}
      ensures applications == old(applications) && statusHistory == old(statusHistory) && searchTerms == old(searchTerms)
      ensures applicationSeq == old(applicationSeq) && historySeq == old(historySeq) && termSeq == old(termSeq)
    {
      if jobUrl !in DiscoveredUrls(discoveredJobs) {
        discoveredSeq := discoveredSeq + 1;
        discoveredJobs := discoveredJobs + [DiscoveredJob(discoveredSeq, jobUrl, now)];
      }
    }

    /** `add_search_term`: INSERT OR IGNORE of the (term, term_type) pair, active by default; the type defaults to "title". */
    method AddSearchTerm(term: string, termType: string := "title")
      requires Valid()
      modifies this
      ensures Valid()
      ensures searchTerms == InsertTerm(old(searchTerms), term, termType, old(termSeq) + 1)
      ensures termSeq == if (term, termType) in TermKeys(old(searchTerms)) then old(termSeq) else old(termSeq) + 1
      ensures applications == old(applications) && statusHistory == old(statusHistory) && discoveredJobs == old(discoveredJobs)
      ensures applicationSeq == old(applicationSeq) && historySeq == old(historySeq) && discoveredSeq == old(discoveredSeq)
    {
      if (term, termType) !in TermKeys(searchTerms) {
        termSeq := termSeq + 1;
        searchTerms := searchTerms + [SearchTerm(termSeq, term, termType, true)];
      }
    }

    /** `delete_search_term`: removes the term under every term_type. */
    method DeleteSearchTerm(term: string)
      requires Valid()
      modifies this
      ensures Valid()
      ensures searchTerms == WithoutTerm(old(searchTerms), term)
      ensures applications == old(applications) && statusHistory == old(statusHistory) && discoveredJobs == old(discoveredJobs)
      ensures applicationSeq == old(applicationSeq) && historySeq == old(historySeq) && discoveredSeq == old(discoveredSeq)
      ensures termSeq == old(termSeq)
    {
      WithoutTermKeepsUnique(searchTerms, term);
      searchTerms := WithoutTerm(searchTerms, term);
    }

    /** `get_search_terms`: the active terms of one type ("title" unless given), in table order. */
    method GetSearchTerms(termType: string := "title") returns (terms: seq<string>)
      ensures terms == ActiveTerms(searchTerms, termType)
    {
      terms := [];
      var i := 0;
      while i < |searchTerms|
        invariant 0 <= i <= |searchTerms|
        invariant terms == ActiveTerms(searchTerms[..i], termType)
      {
        assert searchTerms[..i + 1][..i] == searchTerms[..i];
        var row := searchTerms[i];
        if row.termType == termType && row.isActive {
          terms := terms + [row.term];
        }
        i := i + 1;
      }
      assert searchTerms[..i] == searchTerms;
    }

    /**
     * `update_status`: sets the status of the application with that id (if
     * any) and always appends a history row; no foreign key is enforced.
     */
    method UpdateStatus(applicationId: int, status: string, notes: Option<string>, now: string)
      requires Valid()
      modifies this
      ensures Valid()
      ensures applications == WithStatus(old(applications), applicationId, status)
      ensures statusHistory == old(statusHistory) + [HistoryRow(old(historySeq) + 1, applicationId, status, now, notes)]
      ensures discoveredJobs == old(discoveredJobs) && searchTerms == old(searchTerms)
      ensures applicationSeq == old(applicationSeq) && discoveredSeq == old(discoveredSeq) && termSeq == old(termSeq)
    {
      var updated := WithStatus(applications, applicationId, status);
      WithStatusKeepsInvariant(applications, applicationSeq, applicationId, status);
      applications := updated;
      historySeq := historySeq + 1;
      statusHistory := statusHistory + [HistoryRow(historySeq, applicationId, status, now, notes)];
    }

    /** `get_stats`: total and the per-status and per-platform counts. */
    method GetStats() returns (stats: Stats)
      ensures stats.total == |applications|
      ensures stats.byStatus == CountBy(Column(applications, StatusOf))
      ensures stats.byPlatform == CountBy(Column(applications, PlatformOf))
    {
      var byStatus: map<string, nat> := map[];
      var byPlatform: map<string, nat> := map[];
      var i := 0;
      while i < |applications|
        invariant 0 <= i <= |applications|
        invariant byStatus == CountBy(Column(applications[..i], StatusOf))
        invariant byPlatform == CountBy(Column(applications[..i], PlatformOf))
      {
        var row := applications[i];
        ColumnSnoc(applications, i, StatusOf);
        ColumnSnoc(applications, i, PlatformOf);
        CountBySnoc(Column(applications[..i], StatusOf), row.status);
        CountBySnoc(Column(applications[..i], PlatformOf), row.platform);
        byStatus := Increment(byStatus, row.status);
        byPlatform := Increment(byPlatform, row.platform);
        i := i + 1;
      }
      assert applications[..i] == applications;
      stats := Stats(i, byStatus, byPlatform);
    }
  }

  // ---------------------------------------------------------------------------
  // Lemmas

  /** A new row with a new URL and the next id keeps UNIQUE(job_url) and the increasing ids. */
  lemma AppendApplicationKeepsInvariant(rows: seq<Application>, counter: nat, row: Application)
    requires UniqueApplicationUrls(rows) && IdsBelow(rows, counter)
    requires row.jobUrl !in ApplicationUrls(rows) && row.id == counter + 1
    ensures UniqueApplicationUrls(rows + [row]) && IdsBelow(rows + [row], counter + 1)
    ensures forall i :: 0 <= i < |rows| ==> rows[i].id < row.id
  {
    var r := rows + [row];
    forall i, j | 0 <= i < j < |r| ensures r[i].jobUrl != r[j].jobUrl && r[i].id < r[j].id {
      if j == |rows| {
        assert ApplicationUrls(rows)[i] == r[i].jobUrl;
        assert rows[i].id <= rows[|rows| - 1].id;
      }
    }
  }

  /** Changing statuses keeps the URLs and ids, and so UNIQUE(job_url) and the increasing ids. */
  lemma WithStatusKeepsInvariant(rows: seq<Application>, counter: nat, id: int, status: string)
    requires UniqueApplicationUrls(rows) && IdsBelow(rows, counter)
    ensures UniqueApplicationUrls(WithStatus(rows, id, status)) && IdsBelow(WithStatus(rows, id, status), counter)
    ensures ApplicationUrls(WithStatus(rows, id, status)) == ApplicationUrls(rows)
  {
    var r := WithStatus(rows, id, status);
    assert forall i :: 0 <= i < |rows| ==> r[i].jobUrl == rows[i].jobUrl && r[i].id == rows[i].id;
  }

  /** One more row extends a column by that row's value. */
  lemma ColumnSnoc(rows: seq<Application>, i: nat, f: Application -> string)
    requires i < |rows|
    ensures Column(rows[..i + 1], f) == Column(rows[..i], f) + [f(rows[i])]
  {
    assert rows[..i + 1][..i] == rows[..i];
  }

  /** `CountBy` counts one more occurrence of a value appended at the end. */
  lemma CountBySnoc(values: seq<string>, v: string)
    ensures CountBy(values + [v]) == Increment(CountBy(values), v)
  {
    assert (values + [v])[..|values|] == values;
  }

  /** Deleting rows keeps the remaining (term, term_type) pairs distinct. */
  lemma {:induction false} WithoutTermKeepsUnique(rows: seq<SearchTerm>, term: string)
    requires UniqueTermKeys(rows)
    ensures UniqueTermKeys(WithoutTerm(rows, term))
  {
    if rows != [] {
      var init := rows[..|rows| - 1];
      var last := rows[|rows| - 1];
      WithoutTermKeepsUnique(init, term);
      var r0 := WithoutTerm(init, term);
      if last.term != term {
        var r := r0 + [last];
        forall i, j | 0 <= i < j < |r|
          ensures r[i].term != r[j].term || r[i].termType != r[j].termType
        {
          if j == |r| - 1 {
            assert r[i] in r0;
            var k :| 0 <= k < |init| && init[k] == r[i];
            assert rows[k] == r[i];
          } else {
            assert r0[i] == r[i] && r0[j] == r[j];
          }
        }
      }
    }
  }

  /** `job_seen` right after `add_discovered_job(u)` is true: the URL is in the discovered table. */
  lemma DiscoveredIsSeen(rows: seq<DiscoveredJob>, url: string, date: string, id: nat)
    ensures url in DiscoveredUrls(InsertDiscovered(rows, url, date, id))
  {
    var r := InsertDiscovered(rows, url, date, id);
    if url !in DiscoveredUrls(rows) {
      assert DiscoveredUrls(r)[|rows|] == url;
    }
  }

  /** A repeated `add_discovered_job` leaves the table unchanged, whatever its date and id. */
  lemma DiscoverIdempotent(rows: seq<DiscoveredJob>, url: string, d1: string, id1: nat, d2: string, id2: nat)
    ensures InsertDiscovered(InsertDiscovered(rows, url, d1, id1), url, d2, id2) == InsertDiscovered(rows, url, d1, id1)
  {
    DiscoveredIsSeen(rows, url, d1, id1);
  }

  /** INSERT OR IGNORE keeps the URLs distinct, so a URL occurs at most once in `discovered_jobs`. */
  lemma InsertDiscoveredDistinct(rows: seq<DiscoveredJob>, url: string, date: string, id: nat)
    requires UniqueDiscoveredUrls(rows)
    ensures UniqueDiscoveredUrls(InsertDiscovered(rows, url, date, id))
  {
    var r := InsertDiscovered(rows, url, date, id);
    if url !in DiscoveredUrls(rows) {
      forall i, j | 0 <= i < j < |r| ensures r[i].jobUrl != r[j].jobUrl {
        if j == |rows| {
          assert DiscoveredUrls(rows)[i] == r[i].jobUrl;
        } else {
          assert rows[i] == r[i] && rows[j] == r[j];
        }
      }
    }
  }

  /** A repeated `add_search_term` with the same pair changes nothing. */
  lemma AddTermIdempotent(rows: seq<SearchTerm>, term: string, termType: string, id1: nat, id2: nat)
    ensures InsertTerm(InsertTerm(rows, term, termType, id1), term, termType, id2) == InsertTerm(rows, term, termType, id1)
  {
    var r := InsertTerm(rows, term, termType, id1);
    if (term, termType) !in TermKeys(rows) {
      assert TermKeys(r)[|rows|] == (term, termType);
    }
  }

  /** After `delete_search_term(t)` no row holds t, under any type, and `get_search_terms` never returns it. */
  lemma DeleteRemovesEveryType(rows: seq<SearchTerm>, term: string, termType: string)
    ensures forall x :: x in WithoutTerm(rows, term) ==> x.term != term
    ensures term !in ActiveTerms(WithoutTerm(rows, term), termType)
  {
    var r := WithoutTerm(rows, term);
    forall i | 0 <= i < |r| ensures r[i].term != term {
      assert r[i] in r;
    }
  }

  /** Updating a status touches only the rows with that id; URLs and ids stay as they were. */
  lemma UpdateTouchesOnlyThatId(rows: seq<Application>, id: int, status: string, i: nat)
    requires i < |rows| && rows[i].id != id
    ensures WithStatus(rows, id, status)[i] == rows[i]
    ensures ApplicationUrls(WithStatus(rows, id, status)) == ApplicationUrls(rows)
  {
    assert ApplicationUrls(WithStatus(rows, id, status)) == ApplicationUrls(rows);
  }

  /** The sum of the counts in a map. */
  ghost function MapSum(m: map<string, nat>): nat
    decreases |m.Keys|
  {
    if m == map[] then 0
    else
      var k :| k in m;
      assert |(m - {k}).Keys| < |m.Keys| by {
        assert (m - {k}).Keys < m.Keys;
      }
      m[k] + MapSum(m - {k})
  }

  /** `MapSum` can take any key out first. */
  lemma {:induction false} MapSumRemove(m: map<string, nat>, k: string)
    requires k in m
    ensures MapSum(m) == m[k] + MapSum(m - {k})
    decreases |m.Keys|
  {
    var j :| j in m && MapSum(m) == m[j] + MapSum(m - {j});
    if j != k {
      assert (m - {j}).Keys < m.Keys;
      assert (m - {k}).Keys < m.Keys;
      MapSumRemove(m - {j}, k);
      MapSumRemove(m - {k}, j);
      assert m - {j} - {k} == m - {k} - {j};
    }
  }

  /** Counting one more occurrence of a value adds one to the sum of the counts. */
  lemma MapSumIncrement(m: map<string, nat>, v: string)
    ensures MapSum(Increment(m, v)) == MapSum(m) + 1
  {
    var m' := Increment(m, v);
    MapSumRemove(m', v);
    assert m' - {v} == m - {v};
    if v in m {
      MapSumRemove(m, v);
    } else {
      assert m - {v} == m;
    }
  }

  /** The counts of a GROUP BY add up to the number of rows. */
  lemma {:induction false} CountBySum(values: seq<string>)
    ensures MapSum(CountBy(values)) == |values|
  {
    if values != [] {
      CountBySum(values[..|values| - 1]);
      MapSumIncrement(CountBy(values[..|values| - 1]), values[|values| - 1]);
    }
  }

  /** In `get_stats`, total equals the sum of the by-status counts and the sum of the by-platform counts. */
  lemma StatsAddUp(rows: seq<Application>)
    ensures MapSum(CountBy(Column(rows, StatusOf))) == |rows|
    ensures MapSum(CountBy(Column(rows, PlatformOf))) == |rows|
  {
    CountBySum(Column(rows, StatusOf));
    CountBySum(Column(rows, PlatformOf));
  }
}
