/**
 * Job postings as the search functions return them, and the URL-based
 * deduplication they share: the "seen" filter that consults and marks the
 * store while it walks a list (`JobAPISearch.search_jobs`,
 * `JobAggregator.search_all_platforms`), the first-wins dictionary loop of
 * `search_multiple_titles`, and the last-wins dictionary comprehension of
 * the module-level `search_jobs`.
 */
module Postings {
  import opened Wrappers
  import opened Database

  /**
   * One job dictionary. Postings from the JSearch API also carry
   * `job_type` and `posted_date`; the scrapers leave them out.
   */
  datatype Posting = Posting(title: string, company: string, location: string, url: string,
                             description: string, platform: string,
                             jobType: Option<string>, postedDate: Option<string>)

  function UrlSet(jobs: seq<Posting>): set<string> {
    set j | j in jobs :: j.url
  }

  function UrlSeq(jobs: seq<Posting>): (urls: seq<string>)
    ensures |urls| == |jobs| && forall i :: 0 <= i < |jobs| ==> urls[i] == jobs[i].url
  {
    seq(|jobs|, i requires 0 <= i < |jobs| => jobs[i].url)
  }

  predicate DistinctUrls(jobs: seq<Posting>) {
    forall i, j :: 0 <= i < j < |jobs| ==> jobs[i].url != jobs[j].url
  }

  /** `a` is `b` with some elements left out, the rest in their order. */
  predicate Subsequence<T(==)>(a: seq<T>, b: seq<T>)
    decreases |b|
  {
    |a| <= |b| && (a == [] || (a[0] == b[0] && Subsequence(a[1..], b[1..])) || (b != [] && Subsequence(a, b[1..])))
  }

  /** Python's `s[:limit]` for any integer `limit`: a negative one counts from the end. */
  function PyTake<T>(s: seq<T>, limit: int): (r: seq<T>)
    ensures |r| <= |s| && r == s[..|r|]
    ensures limit >= 0 ==> |r| == if limit < |s| then limit else |s|
    ensures limit < 0 ==> |r| == if |s| + limit > 0 then |s| + limit else 0
  {
    if limit >= 0 then (if limit < |s| then s[..limit] else s)
    else if |s| + limit > 0 then s[..|s| + limit]
    else []
  }

  // ---------------------------------------------------------------------------
  // The seen filter

  /**
   * Walking `jobs` in order, keep a job when its URL is not yet known, and
   * mark the URL known right after keeping it.
   */
  function FilterUnseen(known: set<string>, jobs: seq<Posting>): seq<Posting>
    decreases |jobs|
  {
    if jobs == [] then []
    else if jobs[0].url in known then FilterUnseen(known, jobs[1..])
    else
      var rest := FilterUnseen(known + {jobs[0].url}, jobs[1..]);
      [jobs[0]] + rest
  }

  /** A kept job was met in the walk, its URL was not known, and no two kept jobs share a URL. */
  lemma {:induction false} FilterUnseenFresh(known: set<string>, jobs: seq<Posting>)
    ensures forall j :: j in FilterUnseen(known, jobs) ==> j in jobs && j.url !in known
    ensures DistinctUrls(FilterUnseen(known, jobs))
    decreases |jobs|
  {
    if jobs != [] {
      if jobs[0].url in known {
        FilterUnseenFresh(known, jobs[1..]);
      } else {
        FilterUnseenFresh(known + {jobs[0].url}, jobs[1..]);
      }
    }
  }

  /** Every URL the walk meets is known afterwards: either it was, or its first job was kept. */
  lemma {:induction false} FilterUnseenCovers(known: set<string>, jobs: seq<Posting>)
    ensures known + UrlSet(jobs) == known + UrlSet(FilterUnseen(known, jobs))
    decreases |jobs|
  {
    if jobs != [] {
      var x := jobs[0];
      assert jobs == [x] + jobs[1..];
      assert UrlSet(jobs) == {x.url} + UrlSet(jobs[1..]);
      if x.url in known {
        FilterUnseenCovers(known, jobs[1..]);
      } else {
        var rest := FilterUnseen(known + {x.url}, jobs[1..]);
        FilterUnseenCovers(known + {x.url}, jobs[1..]);
        assert UrlSet([x] + rest) == {x.url} + UrlSet(rest);
      }
    }
  }

  /** The kept jobs are in the order they were met. */
  lemma {:induction false} FilterUnseenSubsequence(known: set<string>, jobs: seq<Posting>)
    ensures Subsequence(FilterUnseen(known, jobs), jobs)
    decreases |jobs|
  {
    if jobs != [] {
      if jobs[0].url in known {
        FilterUnseenSubsequence(known, jobs[1..]);
      } else {
        FilterUnseenSubsequence(known + {jobs[0].url}, jobs[1..]);
        var kept := FilterUnseen(known, jobs);
        assert kept[1..] == FilterUnseen(known + {jobs[0].url}, jobs[1..]);
      }
    }
  }

  /** A job is kept exactly when its URL is neither known nor met earlier in the walk. */
  lemma {:induction false} FilterUnseenSnoc(known: set<string>, jobs: seq<Posting>, x: Posting)
    ensures FilterUnseen(known, jobs + [x])
         == FilterUnseen(known, jobs) + (if x.url in known + UrlSet(jobs) then [] else [x])
    decreases |jobs|
  {
    if jobs == [] {
      assert [x][1..] == [];
    } else {
      var y := jobs[0];
      assert (jobs + [x])[0] == y && (jobs + [x])[1..] == jobs[1..] + [x];
      assert UrlSet(jobs) == {y.url} + UrlSet(jobs[1..]) by {
        assert jobs == [y] + jobs[1..];
      }
      if y.url in known {
        FilterUnseenSnoc(known, jobs[1..], x);
      } else {
        FilterUnseenSnoc(known + {y.url}, jobs[1..], x);
      }
    }
  }

  lemma UrlSetAppend(a: seq<Posting>, b: seq<Posting>)
    ensures UrlSet(a + b) == UrlSet(a) + UrlSet(b)
  {
    forall u | u in UrlSet(a + b) ensures u in UrlSet(a) + UrlSet(b) {
      var j :| j in a + b && j.url == u;
    }
  }

  /**
   * Walking `a + b` is walking `a`, then walking `b` knowing every URL met
   * in `a`: the filter can be run in pieces with the store carried over.
   */
  lemma {:induction false} FilterUnseenAppend(known: set<string>, a: seq<Posting>, b: seq<Posting>)
    ensures FilterUnseen(known, a + b) == FilterUnseen(known, a) + FilterUnseen(known + UrlSet(a), b)
    decreases |a|
  {
    if a == [] {
      FilterUnseenAppendNil(known, b);
    } else {
      var known' := known + {a[0].url};
      var head := if a[0].url in known then [] else [a[0]];
      var p := FilterUnseen(known', a[1..]);
      var q := FilterUnseen(known' + UrlSet(a[1..]), b);
      KnownAfterHead(known, a);
      FilterUnseenAppend(known', a[1..], b);
      FilterUnseenStepAppend(known, a, b);
      FilterUnseenStep(known, a);
      SeqAssoc(head, p, q);
    }
  }

  lemma FilterUnseenAppendNil(known: set<string>, b: seq<Posting>)
    ensures FilterUnseen(known, [] + b) == FilterUnseen(known, []) + FilterUnseen(known + UrlSet([]), b)
  {
    assert [] + b == b;
    assert known + UrlSet([]) == known;
  }

  lemma SeqAssoc<T>(x: seq<T>, y: seq<T>, z: seq<T>)
    ensures x + (y + z) == (x + y) + z
  {
  }

  /** The first step of walking `a + b` when `a` is not empty. */
  lemma FilterUnseenStepAppend(known: set<string>, a: seq<Posting>, b: seq<Posting>)
    requires a != []
    ensures FilterUnseen(known, a + b)
         == (if a[0].url in known then [] else [a[0]]) + FilterUnseen(known + {a[0].url}, a[1..] + b)
  {
    assert (a + b)[0] == a[0] && (a + b)[1..] == a[1..] + b;
    FilterUnseenStep(known, a + b);
  }

  /** Knowing the head's URL and then the rest's is knowing all of `a`'s. */
  lemma KnownAfterHead(known: set<string>, a: seq<Posting>)
    requires a != []
    ensures known + {a[0].url} + UrlSet(a[1..]) == known + UrlSet(a)
  {
    UrlSetCons(a);
  }

  /** The first step of the walk: the head is kept when its URL is new, and the rest is walked knowing it. */
  lemma FilterUnseenStep(known: set<string>, jobs: seq<Posting>)
    requires jobs != []
    ensures FilterUnseen(known, jobs)
         == (if jobs[0].url in known then [] else [jobs[0]]) + FilterUnseen(known + {jobs[0].url}, jobs[1..])
  {
    if jobs[0].url in known {
      assert known + {jobs[0].url} == known;
      assert [] + FilterUnseen(known, jobs[1..]) == FilterUnseen(known, jobs[1..]);
    }
  }

  /** The URLs of a non-empty list: its head's and those of the rest. */
  lemma UrlSetCons(jobs: seq<Posting>)
    requires jobs != []
    ensures UrlSet(jobs) == {jobs[0].url} + UrlSet(jobs[1..])
  {
    assert jobs == [jobs[0]] + jobs[1..];
  }

  /** The seen filter over one more job of a list, and the URLs of that longer prefix. */
  lemma FilterUnseenPrefix(known: set<string>, jobs: seq<Posting>, i: nat)
    requires i < |jobs|
    ensures FilterUnseen(known, jobs[..i + 1])
         == FilterUnseen(known, jobs[..i]) + (if jobs[i].url in known + UrlSet(jobs[..i]) then [] else [jobs[i]])
    ensures UrlSet(jobs[..i + 1]) == UrlSet(jobs[..i]) + {jobs[i].url}
  {
    assert jobs[..i + 1] == jobs[..i] + [jobs[i]];
    FilterUnseenSnoc(known, jobs[..i], jobs[i]);
  }

  /**
   * The state of a walk that marks URLs as it goes: the store is valid, it
   * has seen `known0` and the URLs of `fetched`, and `kept` is what the seen
   * filter let through of `fetched`.
   */
  ghost predicate Tracks(db: ApplicationDatabase, known0: set<string>, fetched: seq<Posting>, kept: seq<Posting>)
    reads db
  {
    db.Valid() && kept == FilterUnseen(known0, fetched) && db.Known() == known0 + UrlSet(fetched)
  }

  /** One step of that loop: `job_seen`, then `add_discovered_job` when the URL was new. */
  method MarkIfUnseen(db: ApplicationDatabase, url: string, now: string) returns (isNew: bool)
    requires db.Valid()
    modifies db
    ensures db.Valid()
    ensures isNew <==> url !in old(db.Known())
    ensures db.Known() == old(db.Known()) + {url}
    ensures db.OtherTables() == old(db.OtherTables())
  {
    var seen := db.JobSeen(url);
    isNew := !seen;
    if isNew {
      db.AddDiscoveredJob(url, now);
    }
  }

  /**
   * The loop shared by `search_jobs` (per page) and `search_all_platforms`
   * (per scraper): skip a job whose URL `job_seen` reports, otherwise keep
   * it and `add_discovered_job` its URL at once.
   */
  method KeepUnseen(db: ApplicationDatabase, jobs: seq<Posting>, now: string) returns (kept: seq<Posting>)
    requires db.Valid()
    modifies db
    ensures db.Valid()
    ensures kept == FilterUnseen(old(db.Known()), jobs)
    ensures db.Known() == old(db.Known()) + UrlSet(jobs)
    ensures db.OtherTables() == old(db.OtherTables())
  {
    ghost var known0 := db.Known();
    kept := [];
    var i := 0;
    assert jobs[..0] == [];
    while i < |jobs|
      invariant 0 <= i <= |jobs|
      invariant Tracks(db, known0, jobs[..i], kept)
      invariant db.OtherTables() == old(db.OtherTables())
    {
      kept := KeepIfUnseen(db, jobs, i, now, known0, kept);
      i := i + 1;
    }
    assert jobs[..i] == jobs;
  }

  /** One job of the loop in `KeepUnseen`: kept and marked when its URL is new. */
  method KeepIfUnseen(db: ApplicationDatabase, jobs: seq<Posting>, i: nat, now: string, ghost known0: set<string>,
                      kept: seq<Posting>)
    returns (kept': seq<Posting>)
    requires i < |jobs| && Tracks(db, known0, jobs[..i], kept)
    modifies db
    ensures Tracks(db, known0, jobs[..i + 1], kept')
    ensures db.OtherTables() == old(db.OtherTables())
  {
    FilterUnseenPrefix(known0, jobs, i);
    var isNew := MarkIfUnseen(db, jobs[i].url, now);
    kept' := kept;
    if isNew {
      kept' := kept + [jobs[i]];
    }
  }

  // ---------------------------------------------------------------------------
  // search_jobs: the dictionary comprehension keyed on URL

  /** A Python dict from URL to job: its keys in insertion order and its contents. */
  datatype UrlDict = UrlDict(keys: seq<string>, entries: map<string, Posting>)

  predicate WellFormedDict(d: UrlDict) {
    (forall i, j :: 0 <= i < j < |d.keys| ==> d.keys[i] != d.keys[j])
    && (forall k :: k in d.keys ==> k in d.entries) && (forall k :: k in d.entries ==> k in d.keys)
  }

  /** `d[url] = job`: a new key goes to the end; an existing key keeps its place and takes the new value. */
  function Put(d: UrlDict, url: string, job: Posting): (r: UrlDict)
    requires WellFormedDict(d)
    ensures WellFormedDict(r)
  {
    if url in d.entries then d.(entries := d.entries[url := job])
    else UrlDict(d.keys + [url], d.entries[url := job])
  }

  /** `{job['url']: job for job in jobs if job.get('url')}`. */
  function Comprehension(jobs: seq<Posting>): (d: UrlDict)
    ensures WellFormedDict(d)
    ensures d.entries.Keys == UrlSet(jobs) - {""}
  {
    if jobs == [] then UrlDict([], map[])
    else
      var init := jobs[..|jobs| - 1];
      var last := jobs[|jobs| - 1];
      assert jobs == init + [last];
      assert UrlSet(jobs) == UrlSet(init) + {last.url};
      var d := Comprehension(init);
      if last.url != "" then Put(d, last.url, last) else d
  }

  /** `list(d.values())`. */
  function Values(d: UrlDict): (vs: seq<Posting>)
    requires WellFormedDict(d)
    ensures |vs| == |d.keys|
  {
    seq(|d.keys|, i requires 0 <= i < |d.keys| && WellFormedDict(d) => d.entries[d.keys[i]])
  }

  /** Adding a new key appends its value to `list(d.values())`. */
  lemma PutNewKey(d: UrlDict, url: string, job: Posting)
    requires WellFormedDict(d) && url !in d.entries
    ensures Values(Put(d, url, job)) == Values(d) + [job]
  {
    var r := Put(d, url, job);
    forall i | 0 <= i < |d.keys| ensures Values(r)[i] == Values(d)[i] {
      assert d.keys[i] in d.entries;
    }
  }

  /** The module-level `search_jobs` collapse: one job per non-empty URL. */
  function CollapseByUrl(jobs: seq<Posting>): seq<Posting> {
    Values(Comprehension(jobs))
  }

  /** The value kept for a URL is the last job with that URL. */
  lemma {:induction false} ComprehensionLastWins(jobs: seq<Posting>, url: string)
    requires url in Comprehension(jobs).entries
    ensures exists i :: 0 <= i < |jobs| && jobs[i] == Comprehension(jobs).entries[url]
                        && jobs[i].url == url && forall k :: i < k < |jobs| ==> jobs[k].url != url
  {
    var init := jobs[..|jobs| - 1];
    var last := jobs[|jobs| - 1];
    if last.url == url {
      assert jobs[|jobs| - 1] == Comprehension(jobs).entries[url];
    } else {
      assert Comprehension(jobs).entries[url] == Comprehension(init).entries[url];
      ComprehensionLastWins(init, url);
      var i :| 0 <= i < |init| && init[i] == Comprehension(init).entries[url]
               && init[i].url == url && forall k :: i < k < |init| ==> init[k].url != url;
      LastAfterPrefix(jobs, init, i, url);
    }
  }

  /** A URL absent after position `i` of all but the last job, and not the last job's, is absent after `i`. */
  lemma LastAfterPrefix(jobs: seq<Posting>, init: seq<Posting>, i: nat, url: string)
    requires |jobs| > 0 && init == jobs[..|jobs| - 1] && jobs[|jobs| - 1].url != url
    requires forall k :: i < k < |init| ==> init[k].url != url
    ensures forall k :: i < k < |jobs| ==> jobs[k].url != url
  {
    forall k | i < k < |init| ensures jobs[k].url != url {
      assert init[k] == jobs[k];
    }
  }

  /** The keys come in the order of each URL's first job, which is the order `FilterUnseen` keeps. */
  lemma {:induction false} ComprehensionKeyOrder(jobs: seq<Posting>)
    ensures Comprehension(jobs).keys == UrlSeq(FilterUnseen({""}, jobs))
  {
    if jobs != [] {
      var init := jobs[..|jobs| - 1];
      var last := jobs[|jobs| - 1];
      assert jobs == init + [last];
      ComprehensionKeyOrder(init);
      FilterUnseenSnoc({""}, init, last);
      var kept := FilterUnseen({""}, init);
      if last.url in {""} + UrlSet(init) {
        assert FilterUnseen({""}, jobs) == kept;
      } else {
        assert UrlSeq(kept + [last]) == UrlSeq(kept) + [last.url];
      }
    }
  }

  /** What the module-level `search_jobs` returns: distinct, non-empty URLs, each with its last job. */
  lemma CollapseByUrlProperties(jobs: seq<Posting>)
    ensures DistinctUrls(CollapseByUrl(jobs))
    ensures forall j :: j in CollapseByUrl(jobs) ==> j.url != ""
    ensures UrlSet(CollapseByUrl(jobs)) == UrlSet(jobs) - {""}
    ensures forall m :: 0 <= m < |CollapseByUrl(jobs)| ==>
              exists i :: 0 <= i < |jobs| && jobs[i] == CollapseByUrl(jobs)[m]
                          && forall k :: i < k < |jobs| ==> jobs[k].url != jobs[i].url
  {
    CollapsedEntries(jobs);
    CollapsedLastWins(jobs);
    CollapsedUrls(jobs);
  }

  /** The collapse lists the dictionary's values in key order, each under its own URL. */
  lemma CollapsedEntries(jobs: seq<Posting>)
    ensures var d, vs := Comprehension(jobs), CollapseByUrl(jobs);
            && DistinctUrls(vs)
            && (forall j :: j in vs ==> j.url != "")
            && forall m :: 0 <= m < |vs| ==> vs[m].url == d.keys[m] && vs[m] == d.entries[d.keys[m]]
  {
    var d := Comprehension(jobs);
    var vs := CollapseByUrl(jobs);
    forall m | 0 <= m < |vs| ensures vs[m].url == d.keys[m] && vs[m] == d.entries[d.keys[m]] {
      ComprehensionEntryUrl(jobs, d.keys[m]);
    }
  }

  lemma CollapsedLastWins(jobs: seq<Posting>)
    ensures forall m :: 0 <= m < |CollapseByUrl(jobs)| ==>
              exists i :: 0 <= i < |jobs| && jobs[i] == CollapseByUrl(jobs)[m]
                          && forall k :: i < k < |jobs| ==> jobs[k].url != jobs[i].url
  {
    var d := Comprehension(jobs);
    var vs := CollapseByUrl(jobs);
    forall m | 0 <= m < |vs|
      ensures exists i :: 0 <= i < |jobs| && jobs[i] == vs[m] && forall k :: i < k < |jobs| ==> jobs[k].url != jobs[i].url
    {
      ComprehensionLastWins(jobs, d.keys[m]);
    }
  }

  lemma CollapsedUrls(jobs: seq<Posting>)
    ensures UrlSet(CollapseByUrl(jobs)) == UrlSet(jobs) - {""}
  {
    var d := Comprehension(jobs);
    var vs := CollapseByUrl(jobs);
    CollapsedEntries(jobs);
    forall u ensures u in UrlSet(vs) <==> u in d.entries {
      if u in d.entries {
        var m :| 0 <= m < |d.keys| && d.keys[m] == u;
        assert vs[m] in vs;
      }
    }
  }

  /** On jobs whose URLs are already distinct the collapse only drops the jobs without a URL. */
  lemma CollapseDistinct(jobs: seq<Posting>)
    requires DistinctUrls(jobs)
    ensures CollapseByUrl(jobs) == FilterUnseen({""}, jobs)
  {
    var d := Comprehension(jobs);
    var vs := CollapseByUrl(jobs);
    var f := FilterUnseen({""}, jobs);
    ComprehensionKeyOrder(jobs);
    FilterUnseenFresh({""}, jobs);
    forall m | 0 <= m < |vs| ensures vs[m] == f[m] {
      var url := d.keys[m];
      assert url == f[m].url;
      ComprehensionLastWins(jobs, url);
      var i :| 0 <= i < |jobs| && jobs[i] == d.entries[url] && jobs[i].url == url
               && forall k :: i < k < |jobs| ==> jobs[k].url != url;
      assert f[m] in f;
      var i' :| 0 <= i' < |jobs| && jobs[i'] == f[m];
      assert i == i';
    }
  }

  /** Each entry of the comprehension is stored under its own URL. */
  lemma {:induction false} ComprehensionEntryUrl(jobs: seq<Posting>, url: string)
    requires url in Comprehension(jobs).entries
    ensures Comprehension(jobs).entries[url].url == url
  {
    var init := jobs[..|jobs| - 1];
    var last := jobs[|jobs| - 1];
    if last.url != url {
      ComprehensionEntryUrl(init, url);
    }
  }

  // ---------------------------------------------------------------------------
  // search_multiple_titles: the first job per URL

  /**
   * `search_multiple_titles`' loop: a job is entered in `unique_jobs` when
   * its URL is non-empty and not yet a key; the values come out in
   * insertion order.
   */
  method FirstPerUrl(jobs: seq<Posting>) returns (unique: seq<Posting>)
    ensures unique == FilterUnseen({""}, jobs)
  {
    var d := UrlDict([], map[]);
    var i := 0;
    while i < |jobs|
      invariant 0 <= i <= |jobs|
      invariant WellFormedDict(d)
      invariant d.entries.Keys == UrlSet(jobs[..i]) - {""}
      invariant Values(d) == FilterUnseen({""}, jobs[..i])
    {
      var job := jobs[i];
      FilterUnseenPrefix({""}, jobs, i);
      if job.url != "" && job.url !in d.entries {
        PutNewKey(d, job.url, job);
        d := Put(d, job.url, job);
      }
      i := i + 1;
    }
    assert jobs[..i] == jobs;
    unique := Values(d);
  }

  /** What `search_multiple_titles` returns has no empty URL, distinct URLs, and keeps the met order. */
  lemma FirstPerUrlProperties(jobs: seq<Posting>)
    ensures forall j :: j in FilterUnseen({""}, jobs) ==> j.url != "" && j in jobs
    ensures DistinctUrls(FilterUnseen({""}, jobs))
    ensures Subsequence(FilterUnseen({""}, jobs), jobs)
    ensures UrlSet(FilterUnseen({""}, jobs)) == UrlSet(jobs) - {""}
  {
    FilterUnseenFresh({""}, jobs);
    FilterUnseenSubsequence({""}, jobs);
    FilterUnseenCovers({""}, jobs);
  }
}
