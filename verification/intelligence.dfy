/**
 * The AI-response handling of `JobIntelligence`: extracting the JSON payload
 * from a markdown fence, the backtick cleanup, the cache keys, and the
 * cache-first control flow of `scout_jobs`, `analyze_match` and
 * `extract_search_profile` with their fixed fallback records.
 *
 * The providers (Perplexity over HTTP, the Gemini client) are replaced by
 * the `Reply` they give when called, and `json.loads` by the function
 * `parse`. Each operation is first a pure `Decision` (what it returns, what
 * it writes to the cache, whether it calls its provider), then a method of
 * the class that carries it out against the cache.
 */
module Intelligence {
  import opened Wrappers
  import opened Text
  import opened JsonValue
  import opened Cache

  const JsonFence := "```json"

  /** A run of four backticks; "```json" is unambiguous when none occurs. */
  const FourTicks := "````"

  /** What a provider call gives back: the reply text, or the message of the exception raised on the way. */
  datatype Reply = Answer(content: string) | Raised(message: string)

  /** What one call does: its result, the value it writes to the cache (if any), whether it calls the provider. */
  datatype Decision = Decision(result: Json, toCache: Option<Json>, calledProvider: bool)

  // ---------------------------------------------------------------------------
  // Fence extraction in scout_jobs

  /** Every "```json" starts with a "```". */
  lemma JsonFenceStartsWithFence(s: string, i: int)
    ensures OccursAt(s, JsonFence, i) ==> OccursAt(s, Fence, i)
  {
    if OccursAt(s, JsonFence, i) {
      assert s[i..i + 3] == s[i..i + 7][..3];
    }
  }

  /**
   * The payload `scout_jobs` extracts from the reply: after the first
   * "```json", cut at the next "```json" and then at the first "```"; or
   * else the text between the first two "```"; stripped in both cases. A
   * reply without fences is left exactly as it is.
   */
  function Unfence(content: string): (r: string)
    ensures !Contains(content, Fence) ==> r == content
    ensures Contains(content, Fence) ==> !Contains(r, Fence)
  {
    if Find(content, JsonFence).Some? then
      JsonFenceStartsWithFence(content, Find(content, JsonFence).value);
      var payload := Before(SecondPiece(content, JsonFence), Fence);
      StripKeepsAbsence(payload, Fence);
      Strip(payload)
    else if Find(content, Fence).Some? then
      var payload := Before(SecondPiece(content, Fence), Fence);
      StripKeepsAbsence(payload, Fence);
      Strip(payload)
    else
      content
  }

  /** Right after a "```" that is not part of "````", no other "```" starts. */
  lemma NoFenceJustAfter(s: string, i: nat)
    requires OccursAt(s, Fence, i) && !OccursAt(s, FourTicks, i)
    ensures !OccursAt(s, Fence, i + 1) && !OccursAt(s, Fence, i + 2)
  {
    if i + 4 <= |s| {
      assert s[i..i + 4] == s[i..i + 3] + [s[i + 3]];
      assert s[i + 3] != '`';
      assert s[i + 1..i + 4][2] == s[i + 3];
      if i + 5 <= |s| {
        assert s[i + 2..i + 5][1] == s[i + 3];
      }
    }
  }

  /** Cut at the first "```" at or after `a`, a slice of `s` that holds it ends just before it. */
  lemma BeforeFirstFence(s: string, a: nat, e: nat, q: nat)
    requires a <= e && e + 3 <= q <= |s| && OccursAt(s, Fence, e)
    requires forall j :: a <= j < e ==> !OccursAt(s, Fence, j)
    ensures Before(s[a..q], Fence) == s[a..e]
  {
    var x := s[a..q];
    var r := Before(x, Fence);
    SliceOccurrence(s, Fence, a, q, e - a);
    assert |r| <= e - a;
    SliceOccurrence(s, Fence, a, q, |r|);
    assert |r| == e - a;
  }

  /**
   * A slice from `a` to `q` that ends at the next "```" after `a`, or holds
   * all of it, is cut by `Before` exactly there.
   */
  lemma CutAtNextFence(s: string, a: nat, q: nat)
    requires a <= q <= |s|
    requires NextOrEnd(s, Fence, a) == q || NextOrEnd(s, Fence, a) + 3 <= q
    ensures Before(s[a..q], Fence) == s[a..NextOrEnd(s, Fence, a)]
  {
    var e := NextOrEnd(s, Fence, a);
    if e == q {
      UpToNextIsFree(s, Fence, a);
    } else {
      BeforeFirstFence(s, a, e, q);
    }
  }

  /**
   * With "```json" present, and no run of four backticks to blur where a
   * fence starts, the payload is the stripped text from after the first
   * "```json" up to the next "```", or to the end.
   */
  lemma UnfenceJsonBlock(content: string)
    requires Contains(content, JsonFence) && !Contains(content, FourTicks)
    ensures var a := Find(content, JsonFence).value + |JsonFence|;
            Unfence(content) == Strip(content[a..NextOrEnd(content, Fence, a)])
  {
    var a := Find(content, JsonFence).value + |JsonFence|;
    var q := NextOrEnd(content, JsonFence, a);
    var e := NextOrEnd(content, Fence, a);
    assert SecondPiece(content, JsonFence) == content[a..q];
    JsonFenceStartsWithFence(content, q);
    assert e <= q;
    if e != q {
      NoFenceJustAfter(content, e);
    }
    CutAtNextFence(content, a, q);
  }

  /** Without "```json" but with "```", the payload is the stripped text between the first two "```". */
  lemma UnfencePlainBlock(content: string)
    requires !Contains(content, JsonFence) && Contains(content, Fence)
    ensures var a := Find(content, Fence).value + |Fence|;
            Unfence(content) == Strip(content[a..NextOrEnd(content, Fence, a)])
  {
    var x := SecondPiece(content, Fence);
    assert Find(content, JsonFence).None? && Find(content, Fence).Some?;
    assert Unfence(content) == Strip(Before(x, Fence));
    assert Before(x, Fence) == x;
  }

  /**
   * Where a backtick run precedes a later "```json", the split-based code
   * keeps the backticks that do not complete a fence.
   */
  lemma UnfenceBacktickRun()
    ensures Unfence("```json" + "ab````json") == "ab`"
  {
    var s := "```json" + "ab````json";
    assert OccursAt(s, JsonFence, 0);
    assert FindFrom(s, JsonFence, 0) == Some(0);
    assert OccursAt(s, JsonFence, 10);
    assert FindFrom(s, JsonFence, 10) == Some(10);
    assert s[9..16][3] == '`';
    assert FindFrom(s, JsonFence, 9) == Some(10);
    assert s[8..15][0] == 'b';
    assert FindFrom(s, JsonFence, 8) == Some(10);
    assert s[7..14][0] == 'a';
    assert FindFrom(s, JsonFence, 7) == Some(10);
    var x := SecondPiece(s, JsonFence);
    assert x == "ab`";
    assert x[0..3][0] == 'a';
    assert Before(x, Fence) == x;
    assert !IsSpace('a') && !IsSpace('`');
  }

  // ---------------------------------------------------------------------------
  // Cleanup in analyze_match and extract_search_profile

  /**
   * `text.replace("```json", "").replace("```", "").strip()`: no "```"
   * survives, and the result has no whitespace at either end.
   */
  function Cleanup(text: string): (r: string)
    ensures !Contains(r, Fence)
    ensures r == [] || (!IsSpace(r[0]) && !IsSpace(r[|r| - 1]))
  {
    var unfenced := Replace(Replace(text, JsonFence, ""), Fence, "");
    RemoveFencesLeavesNone(Replace(text, JsonFence, ""));
    StripKeepsAbsence(unfenced, Fence);
    Strip(unfenced)
  }

  /** A reply without backtick fences is only stripped. */
  lemma CleanupPlainText(text: string)
    requires !Contains(text, Fence)
    ensures Cleanup(text) == Strip(text)
  {
    forall i ensures !OccursAt(text, JsonFence, i) {
      JsonFenceStartsWithFence(text, i);
    }
  }

  // ---------------------------------------------------------------------------
  // Unwrapping the decoded reply

  /** The keys `scout_jobs` looks for in a decoded object, in order. */
  const UnwrapKeys: seq<string> := ["jobs", "data", "results"]

  /** The value under the first of "jobs", "data", "results" present in an object; anything else as it is. */
  function Unwrapped(v: Json): Json {
    if v.JObj? && "jobs" in v.fields then v.fields["jobs"]
    else if v.JObj? && "data" in v.fields then v.fields["data"]
    else if v.JObj? && "results" in v.fields then v.fields["results"]
    else v
  }

  /** The loop over `UnwrapKeys` that stops at the first key present. */
  method Unwrap(v: Json) returns (r: Json)
    ensures r == Unwrapped(v)
  {
    r := v;
    assert UnwrapKeys[0] == "jobs" && UnwrapKeys[1] == "data" && UnwrapKeys[2] == "results";
    if v.JObj? {
      var i := 0;
      while i < |UnwrapKeys|
        invariant 0 <= i <= |UnwrapKeys|
        invariant r == v
        invariant forall j :: 0 <= j < i ==> UnwrapKeys[j] !in v.fields
      {
        if UnwrapKeys[i] in v.fields {
          r := v.fields[UnwrapKeys[i]];
          break;
        }
        i := i + 1;
      }
    }
  }

  /** Unwrapping goes one level deep only: a wrapper inside a wrapper stays. */
  lemma UnwrapOneLevel(inner: Json)
    ensures Unwrapped(JObj(map["data" := JObj(map["jobs" := inner])])) == JObj(map["jobs" := inner])
  {
    var outer := map["data" := JObj(map["jobs" := inner])];
    assert "jobs" !in outer;
  }

  // ---------------------------------------------------------------------------
  // Cache keys

  function ScoutKey(query: string): string {
    "scout_" + query
  }

  function MatchKey(md5: string -> Digest, resume: string, job: string): string {
    "match_" + md5(resume + job)
  }

  function ProfileKey(md5: string -> Digest, resume: string): string {
    "profile_" + md5(resume)
  }

  /** The prefixes keep the three operations' entries apart, and the scout key determines its query. */
  lemma KeysDisjoint(md5: string -> Digest, query: string, resume: string, job: string, resume2: string)
    ensures ScoutKey(query) != MatchKey(md5, resume, job)
    ensures ScoutKey(query) != ProfileKey(md5, resume2)
    ensures MatchKey(md5, resume, job) != ProfileKey(md5, resume2)
  {
    assert ScoutKey(query)[0] == 's';
    assert MatchKey(md5, resume, job)[0] == 'm';
    assert ProfileKey(md5, resume2)[0] == 'p';
  }

  /** Distinct queries have distinct scout keys. */
  lemma ScoutKeyInjective(q1: string, q2: string)
    requires ScoutKey(q1) == ScoutKey(q2)
    ensures q1 == q2
  {
    assert q1 == ScoutKey(q1)[6..];
  }

  /** The match key depends on the concatenation only: the split between resume and job is lost. */
  lemma MatchKeyOfConcatenation(md5: string -> Digest, r1: string, j1: string, r2: string, j2: string)
    requires r1 + j1 == r2 + j2
    ensures MatchKey(md5, r1, j1) == MatchKey(md5, r2, j2)
  {
  }

  // ---------------------------------------------------------------------------
  // The three decisions

  /** Python's `if cached_data:` on what `cache.get` returned. */
  predicate Hit(cached: Option<Json>) {
    cached.Some? && Truthy(cached.value)
  }

  function EmptyList(): Json {
    JArr([])
  }

  /** `analyze_match`'s answer when no Gemini client exists. */
  function NoClientVerdict(): Json {
    JObj(map["score" := JNum(50), "verdict" := JStr("Gemini key missing."),
             "strengths" := JArr([]), "gaps" := JArr([])])
  }

  /** `analyze_match`'s answer when the call or the decoding raised `message`. */
  function FailedVerdict(message: string): Json {
    JObj(map["score" := JNum(0), "verdict" := JStr("Match analysis failed: " + message),
             "strengths" := JArr([]), "gaps" := JArr([])])
  }

  /** `extract_search_profile`'s answer without a client or after a failure. */
  function DefaultProfile(): Json {
    JObj(map["query" := JStr("Software Engineer"), "location" := JStr("USA")])
  }

  /** `scout_jobs`: cache first, then Perplexity; only a list is cached and returned. */
  function Scout(cached: Option<Json>, hasKey: bool, reply: Reply, parse: string -> Decoded): Decision {
    if Hit(cached) then Decision(cached.value, None, false)
    else if !hasKey then Decision(EmptyList(), None, false)
    else
      match reply
      case Raised(_) => Decision(EmptyList(), None, true)
      case Answer(content) =>
        match parse(Unfence(content))
        case ParseError(_) => Decision(EmptyList(), None, true)
        case Parsed(v) =>
          var jobs := Unwrapped(v);
          if jobs.JArr? then Decision(jobs, Some(jobs), true) else Decision(EmptyList(), None, true)
  }

  /** `analyze_match`: cache first, then Gemini on the cleaned reply. */
  function Analyze(cached: Option<Json>, hasClient: bool, reply: Reply, parse: string -> Decoded): Decision {
    if Hit(cached) then Decision(cached.value, None, false)
    else if !hasClient then Decision(NoClientVerdict(), None, false)
    else
      match reply
      case Raised(message) => Decision(FailedVerdict(message), None, true)
      case Answer(text) =>
        match parse(Cleanup(text))
        case ParseError(message) => Decision(FailedVerdict(message), None, true)
        case Parsed(v) => Decision(v, Some(v), true)
  }

  /** `extract_search_profile`: cache first, then Gemini; every failure falls back to the default profile. */
  function Profile(cached: Option<Json>, hasClient: bool, reply: Reply, parse: string -> Decoded): Decision {
    if Hit(cached) then Decision(cached.value, None, false)
    else if !hasClient then Decision(DefaultProfile(), None, false)
    else
      match reply
      case Raised(_) => Decision(DefaultProfile(), None, true)
      case Answer(text) =>
        match parse(Cleanup(text))
        case ParseError(_) => Decision(DefaultProfile(), None, true)
        case Parsed(v) => Decision(v, Some(v), true)
  }

  /** The cache directory after a decision: written only when the decision caches a value. */
  function Apply(files: map<Digest, CacheFile>, md5: string -> Digest, key: string, toCache: Option<Json>,
                 now: int, outcome: WriteOutcome): map<Digest, CacheFile>
  {
    if toCache.Some? then Store(files, md5, key, toCache.value, now, outcome) else files
  }

  // ---------------------------------------------------------------------------
  // Properties of the decisions

  /** A truthy cached value is returned as it is: no provider call, no write. */
  lemma HitSkipsProvider(cached: Option<Json>, flag: bool, reply: Reply, parse: string -> Decoded)
    requires Hit(cached)
    ensures Scout(cached, flag, reply, parse) == Decision(cached.value, None, false)
    ensures Analyze(cached, flag, reply, parse) == Decision(cached.value, None, false)
    ensures Profile(cached, flag, reply, parse) == Decision(cached.value, None, false)
  {
  }

  /** A falsy cached value (such as an empty list) counts as a miss. */
  lemma FalsyCachedIsMiss(v: Json, flag: bool, reply: Reply, parse: string -> Decoded)
    requires !Truthy(v)
    ensures Scout(Some(v), flag, reply, parse) == Scout(None, flag, reply, parse)
    ensures Analyze(Some(v), flag, reply, parse) == Analyze(None, flag, reply, parse)
    ensures Profile(Some(v), flag, reply, parse) == Profile(None, flag, reply, parse)
  {
  }

  /** Only a list decoded from the reply is cached, and it is also what `scout_jobs` returns. */
  lemma ScoutCachesOnlyLists(cached: Option<Json>, hasKey: bool, reply: Reply, parse: string -> Decoded)
    ensures var d := Scout(cached, hasKey, reply, parse);
            d.toCache.Some? <==> (!Hit(cached) && hasKey && reply.Answer?
                                  && parse(Unfence(reply.content)).Parsed?
                                  && Unwrapped(parse(Unfence(reply.content)).value).JArr?)
    ensures var d := Scout(cached, hasKey, reply, parse);
            d.toCache.Some? ==> d.toCache.value == d.result && d.result == Unwrapped(parse(Unfence(reply.content)).value)
    ensures var d := Scout(cached, hasKey, reply, parse);
            d.calledProvider <==> !Hit(cached) && hasKey
  {
  }

  /** With no Perplexity key, a miss returns [] without a call and without writing. */
  lemma ScoutWithoutKey(cached: Option<Json>, reply: Reply, parse: string -> Decoded)
    requires !Hit(cached)
    ensures Scout(cached, false, reply, parse) == Decision(EmptyList(), None, false)
  {
  }

  /** Every result of `scout_jobs` that did not come from the cache is a list. */
  lemma ScoutReturnsList(cached: Option<Json>, hasKey: bool, reply: Reply, parse: string -> Decoded)
    requires !Hit(cached)
    ensures Scout(cached, hasKey, reply, parse).result.JArr?
  {
  }

  /** `analyze_match` caches exactly the decoded reply, and never one of its fallback verdicts. */
  lemma AnalyzeCachesOnlySuccess(cached: Option<Json>, hasClient: bool, reply: Reply, parse: string -> Decoded)
    ensures var d := Analyze(cached, hasClient, reply, parse);
            d.toCache.Some? <==> (!Hit(cached) && hasClient && reply.Answer? && parse(Cleanup(reply.content)).Parsed?)
    ensures var d := Analyze(cached, hasClient, reply, parse);
            d.toCache.Some? ==> d.toCache.value == d.result && parse(Cleanup(reply.content)) == Parsed(d.result)
    ensures var d := Analyze(cached, hasClient, reply, parse);
            !Hit(cached) && !hasClient ==> d == Decision(NoClientVerdict(), None, false)
    ensures var d := Analyze(cached, hasClient, reply, parse);
            !Hit(cached) && hasClient && reply.Raised? ==> d == Decision(FailedVerdict(reply.message), None, true)
  {
  }

  /** `extract_search_profile` caches exactly the decoded reply; every fallback is the default profile, uncached. */
  lemma ProfileCachesOnlySuccess(cached: Option<Json>, hasClient: bool, reply: Reply, parse: string -> Decoded)
    ensures var d := Profile(cached, hasClient, reply, parse);
            d.toCache.Some? <==> (!Hit(cached) && hasClient && reply.Answer? && parse(Cleanup(reply.content)).Parsed?)
    ensures var d := Profile(cached, hasClient, reply, parse);
            d.toCache.Some? ==> d.toCache.value == d.result && parse(Cleanup(reply.content)) == Parsed(d.result)
    ensures var d := Profile(cached, hasClient, reply, parse);
            !Hit(cached) && d.toCache.None? ==> d.result == DefaultProfile()
  {
  }

  /** The fallback verdicts are distinguishable from each other by their score. */
  lemma FallbackScores(message: string)
    ensures NoClientVerdict().fields["score"] == JNum(50)
    ensures FailedVerdict(message).fields["score"] == JNum(0)
    ensures NoClientVerdict() != FailedVerdict(message)
  {
    assert NoClientVerdict().fields["score"] != FailedVerdict(message).fields["score"];
  }

  // ---------------------------------------------------------------------------
  // The class

  /** Python's truthiness of an environment value from `os.getenv`. */
  predicate IsSet(value: Option<string>) {
    value.Some? && value.value != ""
  }

  class JobIntelligence {
    const cache: CacheManager
    const perplexityKey: Option<string>
    const geminiKey: Option<string>
    const parse: string -> Decoded

    /**
     * `JobIntelligence()`: a fresh `CacheManager` with the default expiry
     * over the cache directory `onDisk`; a Gemini client exists when
     * GEMINI_API_KEY is set.
     */
    constructor (md5: string -> Digest, onDisk: map<Digest, CacheFile>, perplexityKey: Option<string>,
                 geminiKey: Option<string>, parse: string -> Decoded)
      ensures fresh(cache) && cache.files == onDisk && cache.md5 == md5
      ensures cache.expirySeconds == DEFAULT_EXPIRY_SECONDS
      ensures this.perplexityKey == perplexityKey && this.geminiKey == geminiKey && this.parse == parse
    {
      cache := new CacheManager(DEFAULT_EXPIRY_SECONDS, md5, onDisk);
      this.perplexityKey := perplexityKey;
      this.geminiKey := geminiKey;
      this.parse := parse;
    }

    /** `scout_jobs(search_query)`, where `reply` is what Perplexity answers if it is called. */
    method ScoutJobs(query: string, now: int, reply: Reply, outcome: WriteOutcome) returns (jobs: Json)
      modifies cache
      ensures var d := Scout(Lookup(old(cache.files), cache.md5, ScoutKey(query), now, cache.expirySeconds),
                             IsSet(perplexityKey), reply, parse);
              jobs == d.result && cache.files == Apply(old(cache.files), cache.md5, ScoutKey(query), d.toCache, now, outcome)
    {
      var key := ScoutKey(query);
      var cached := cache.Get(key, now);
      if cached.Some? && Truthy(cached.value) {
        return cached.value;
      }
      if !IsSet(perplexityKey) {
        return JArr([]);
      }
      match reply
      case Raised(_) =>
        jobs := JArr([]);
      case Answer(content) =>
        match parse(Unfence(content))
        case ParseError(_) =>
          jobs := JArr([]);
        case Parsed(v) =>
          var unwrapped := Unwrap(v);
          if unwrapped.JArr? {
            cache.Set(key, unwrapped, now, outcome);
            jobs := unwrapped;
          } else {
            jobs := JArr([]);
          }
    }

    /** `analyze_match(resume_text, job_description)`, where `reply` is what Gemini answers if it is called. */
    method AnalyzeMatch(resume: string, job: string, now: int, reply: Reply, outcome: WriteOutcome) returns (result: Json)
      modifies cache
      ensures var key := MatchKey(cache.md5, resume, job);
              var d := Analyze(Lookup(old(cache.files), cache.md5, key, now, cache.expirySeconds),
                               IsSet(geminiKey), reply, parse);
              result == d.result && cache.files == Apply(old(cache.files), cache.md5, key, d.toCache, now, outcome)
    {
      var key := MatchKey(cache.md5, resume, job);
      var cached := cache.Get(key, now);
      if cached.Some? && Truthy(cached.value) {
        return cached.value;
      }
      if !IsSet(geminiKey) {
        return NoClientVerdict();
      }
      match reply
      case Raised(message) =>
        result := FailedVerdict(message);
      case Answer(text) =>
        match parse(Cleanup(text))
        case ParseError(message) =>
          result := FailedVerdict(message);
        case Parsed(v) =>
          cache.Set(key, v, now, outcome);
          result := v;
    }

    /** `extract_search_profile(resume_text)`, where `reply` is what Gemini answers if it is called. */
    method ExtractSearchProfile(resume: string, now: int, reply: Reply, outcome: WriteOutcome) returns (result: Json)
      modifies cache
      ensures var key := ProfileKey(cache.md5, resume);
              var d := Profile(Lookup(old(cache.files), cache.md5, key, now, cache.expirySeconds),
                               IsSet(geminiKey), reply, parse);
              result == d.result && cache.files == Apply(old(cache.files), cache.md5, key, d.toCache, now, outcome)
    {
      var key := ProfileKey(cache.md5, resume);
      var cached := cache.Get(key, now);
      if cached.Some? && Truthy(cached.value) {
        return cached.value;
      }
      if !IsSet(geminiKey) {
        return DefaultProfile();
      }
      match reply
      case Raised(_) =>
        result := DefaultProfile();
      case Answer(text) =>
        match parse(Cleanup(text))
        case ParseError(_) =>
          result := DefaultProfile();
        case Parsed(v) =>
          cache.Set(key, v, now, outcome);
          result := v;
    }
  }
}
