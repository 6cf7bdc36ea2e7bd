/**
 * What the four `fetch_*` methods of `GitHubAPI` (github_api.py) share: the server's answers
 * to one call, the cache-reuse decision taken before any listing request, and the write-back.
 */
module FetchCommon {
  import opened Common
  import opened Records
  import opened GitHubCache
  import opened Dedup
  import opened Paginator

  const BaseUrl: string := "https://api.github.com"

  /** An entry of `/stats/contributors`: its author's login (`None` when `author` is null) and its payload. */
  datatype StatEntry = StatEntry(author: Option<string>, payload: int)

  /**
   * The server's answers during one fetch call. Sub-requests are functions of the item they
   * are about; a failed sub-request is `None`.
   */
  datatype Remote = Remote(
    stats: Stats,                              // repository or organization summary, {} on failure
    listing: seq<Response>,                    // the listing endpoint, in request order
    itemDetails: int -> Option<Record>,        // `_fetch_item_details` for an issue or PR number
    reviews: int -> seq<int>,                  // the reviews of a PR
    user: string -> Option<Record>,            // `/users/{login}`
    membership: string -> Option<int>,         // `/orgs/{org}/memberships/{login}`
    firstCommit: string -> Option<int>,        // date of an author's first commit
    contributorStats: Option<seq<StatEntry>>)  // `/stats/contributors`

  datatype Resource = Issues | Contributors | Members | PullRequests

  /** `since.isoformat()`: the model renders an instant as its decimal number of seconds. */
  function Render(t: int): (s: string)
    ensures s != []
  {
    IntToString(t)
  }

  /** `filtered[:limit] if limit else filtered`. */
  function LimitSlice(s: seq<Record>, limit: Option<int>): (r: seq<Record>)
    ensures r <= s
    ensures Truthy(limit) && limit.value > 0 ==> |r| <= limit.value
    ensures !Truthy(limit) ==> r == s
  {
    if Truthy(limit) then PyPrefix(s, limit.value) else s
  }

  // ---------------------------------------------------------------- the cache phase

  /** The authoritative total each listing compares `cached_count` with; contributors have none. */
  function ExpectedTotal(res: Resource, stats: Stats): int
  {
    match res
    case Issues => StatOr(stats, "open_issues_count", 0) + StatOr(stats, "closed_issues_count", 0)
    case PullRequests => StatOr(stats, "total_pull_requests", 0)
    case Members => StatOr(stats, "public_members", 0)
    case Contributors => 0
  }

  /** The completeness check that demotes a loaded entry to a miss. */
  predicate Incomplete(res: Resource, e: Entry, stats: Stats, cacheOnly: bool)
  {
    && res != Contributors
    && !cacheOnly
    && e.metadata.completeness.Some?
    && ExpectedTotal(res, stats) > 0
    && e.metadata.completeness.value.cachedCount < ExpectedTotal(res, stats)
  }

  /** `not since or (date_range and since >= date_range['start'])`. */
  predicate Covers(e: Entry, since: Option<int>)
  {
    since.None? || (e.metadata.dateRange.Some? && since.value >= e.metadata.dateRange.value.start)
  }

  /** The cached issues or PRs created at or after `since`; a record without `created_at` raises. */
  function CreatedSince(data: seq<Record>, since: int): (r: Result<seq<Record>, Error>)
    ensures r.Success? <==> AllCreated(data)
    ensures r.Failure? ==> r.error == MissingKey("created_at")
    ensures r.Success? ==> forall x :: x in r.value <==> x in data && x.createdAt.value >= since
    ensures r.Success? ==> Subsequence(r.value, data)
  {
    if data == [] then Success([])
    else
      var prefix := data[..|data| - 1];
      var last := data[|data| - 1];
      assert forall x :: x in data <==> x in prefix || x == last;
      match CreatedSince(prefix, since)
      case Failure(e) => Failure(e)
      case Success(kept) =>
        if last.createdAt.None? then Failure(MissingKey("created_at"))
        else if last.createdAt.value >= since then
          assert (kept + [last])[..|kept|] == kept;
          Success(kept + [last])
        else
          SubsequenceExtend(kept, prefix, last);
          assert prefix + [last] == data;
          Success(kept)
  }

  /** The cached contributors with a `first_contribution_at` at or after `since`. */
  function FirstContributedSince(data: seq<Record>, since: int): (r: seq<Record>)
    ensures forall x :: x in r <==> x in data && x.firstContributionAt.Some? && x.firstContributionAt.value >= since
    ensures Subsequence(r, data)
  {
    if data == [] then []
    else
      var prefix := data[..|data| - 1];
      var last := data[|data| - 1];
      var kept := FirstContributedSince(prefix, since);
      assert forall x :: x in data <==> x in prefix || x == last;
      if last.firstContributionAt.Some? && last.firstContributionAt.value >= since then
        assert (kept + [last])[..|kept|] == kept;
        kept + [last]
      else
        SubsequenceExtend(kept, prefix, last);
        assert prefix + [last] == data;
        kept
  }

  /** What a call returns when it serves the cache: filtered by `since` and, for issues, limited. */
  function ServeCached(res: Resource, data: seq<Record>, since: Option<int>, limit: Option<int>): Result<seq<Record>, Error>
  {
    var filtered :=
      if since.None? then Success(data)
      else if res == Contributors then Success(FirstContributedSince(data, since.value))
      else CreatedSince(data, since.value);
    match filtered
    case Failure(e) => Failure(e)
    case Success(s) => Success(if res == Issues then LimitSlice(s, limit) else s)
  }

  /**
   * The outcome of the cache phase: serve these records, or go on with the entry still held.
   * The member listing has no `since` and serves any entry that passes the completeness check.
   */
  datatype CachePhase = Serve(records: seq<Record>) | Miss(surviving: Option<Entry>)

  function CachePhaseOf(res: Resource, loaded: Option<Entry>, stats: Stats, since: Option<int>,
                        cacheOnly: bool, limit: Option<int>): Result<CachePhase, Error>
  {
    if loaded.None? || Incomplete(res, loaded.value, stats, cacheOnly) then Success(Miss(None))
    else if res == Members || Covers(loaded.value, since) then
      match ServeCached(res, loaded.value.data, since, limit)
      case Failure(e) => Failure(e)
      case Success(s) => Success(Serve(s))
    else if cacheOnly then Success(Serve([]))
    else Success(Miss(loaded))
  }

  /** Loading (when a cache is used) followed by the cache phase. */
  function LoadPhase(res: Resource, files: map<string, StoredFile>, hasCache: bool, path: string,
                     useCache: bool, cacheOnly: bool, since: Option<int>, limit: Option<int>,
                     stats: Stats, now: int): Result<CachePhase, Error>
  {
    var loaded := if (useCache || cacheOnly) && hasCache then Lookup(files, path, cacheOnly, now) else Success(None);
    match loaded
    case Failure(e) => Failure(e)
    case Success(l) => CachePhaseOf(res, l, stats, since, cacheOnly, limit)
  }

  /** The newest cached `created_at`, as `max()` computes it for the incremental request. */
  function NewestCreated(cached: seq<Record>): Result<int, Error>
  {
    if cached == [] then Failure(EmptySequence)
    else if !AllCreated(cached) then Failure(MissingKey("created_at"))
    else Success(MaxOf(CreatedTimes(cached)))
  }

  /** The write-back: `save` when the call uses a cache object, nothing otherwise. */
  function Persist(files: map<string, StoredFile>, hasCache: bool, useCache: bool, path: string,
                   data: seq<Record>, extra: ExtraMetadata, stats: Stats, now: int): Result<map<string, StoredFile>, Error>
  {
    if useCache && hasCache then
      match EntryToSave(files, path, data, extra, stats, now)
      case Failure(e) => Failure(e)
      case Success(entry) => Success(files[path := Parsed(entry)])
    else Success(files)
  }

  /** What one `fetch_*` call returns and leaves in the cache directory. */
  datatype Outcome = Outcome(result: Result<seq<Record>, Error>, files: map<string, StoredFile>)

  // ---------------------------------------------------------------- lemmas

  /**
   * The incremental branches are dead: when an entry survives the completeness check and
   * `since` is unset, the call serves the cache. So a miss that still holds an entry always
   * comes with a `since`.
   */
  lemma SurvivingEntryNeedsSince(res: Resource, loaded: Option<Entry>, stats: Stats, since: Option<int>,
                                 cacheOnly: bool, limit: Option<int>)
    requires CachePhaseOf(res, loaded, stats, since, cacheOnly, limit).Success?
    requires CachePhaseOf(res, loaded, stats, since, cacheOnly, limit).value.Miss?
    requires CachePhaseOf(res, loaded, stats, since, cacheOnly, limit).value.surviving.Some?
    ensures since.Some? && !cacheOnly && res != Members
  {
  }

  /** An entry that survives and covers the request is served: the whole of it when `since` is unset. */
  lemma SurvivingEntryServed(res: Resource, e: Entry, stats: Stats, cacheOnly: bool, limit: Option<int>)
    requires !Incomplete(res, e, stats, cacheOnly)
    ensures CachePhaseOf(res, Some(e), stats, None, cacheOnly, limit)
      == Success(Serve(if res == Issues then LimitSlice(e.data, limit) else e.data))
  {
  }

  /** In cache-only mode the call never reaches the network with an entry in hand. */
  lemma CacheOnlyMissHasNoEntry(res: Resource, loaded: Option<Entry>, stats: Stats, since: Option<int>, limit: Option<int>)
    requires CachePhaseOf(res, loaded, stats, since, true, limit).Success?
    ensures CachePhaseOf(res, loaded, stats, since, true, limit).value.Miss? ==>
      CachePhaseOf(res, loaded, stats, since, true, limit).value.surviving.None?
    ensures loaded.Some? && res != Members && !Covers(loaded.value, since) ==>
      CachePhaseOf(res, loaded, stats, since, true, limit) == Success(Serve([]))
  {
  }

  /**
   * Demotion: outside cache-only mode an entry is dropped exactly when the listing has an
   * authoritative total above zero that its `cached_count` falls short of; a total of 0 never
   * demotes, and neither does cache-only mode.
   */
  lemma DemotionRule(res: Resource, e: Entry, stats: Stats, cacheOnly: bool)
    ensures ExpectedTotal(res, stats) <= 0 ==> !Incomplete(res, e, stats, cacheOnly)
    ensures cacheOnly ==> !Incomplete(res, e, stats, cacheOnly)
    ensures res == Issues && !cacheOnly && e.metadata.completeness.Some? ==>
      (Incomplete(res, e, stats, cacheOnly) <==>
        var total := StatOr(stats, "open_issues_count", 0) + StatOr(stats, "closed_issues_count", 0);
        total > 0 && e.metadata.completeness.value.cachedCount < total)
    ensures res == PullRequests && !cacheOnly && e.metadata.completeness.Some? ==>
      (Incomplete(res, e, stats, cacheOnly) <==>
        var total := StatOr(stats, "total_pull_requests", 0);
        total > 0 && e.metadata.completeness.value.cachedCount < total)
    ensures res == Members && !cacheOnly && e.metadata.completeness.Some? ==>
      (Incomplete(res, e, stats, cacheOnly) <==>
        var total := StatOr(stats, "public_members", 0);
        total > 0 && e.metadata.completeness.value.cachedCount < total)
    ensures res == Contributors ==> !Incomplete(res, e, stats, cacheOnly)
  {
  }

  /** A `since`-filtered cache result is never longer than the cache. */
  lemma ServedNoLonger(res: Resource, data: seq<Record>, since: Option<int>, limit: Option<int>)
    requires ServeCached(res, data, since, limit).Success?
    ensures Subsequence(ServeCached(res, data, since, limit).value, data)
    ensures |ServeCached(res, data, since, limit).value| <= |data|
  {
    var r := ServeCached(res, data, since, limit).value;
    var filtered :=
      if since.None? then data
      else if res == Contributors then FirstContributedSince(data, since.value)
      else CreatedSince(data, since.value).value;
    assert Subsequence(filtered, data) by {
      if since.None? {
        SubsequenceReflexive(data);
      }
    }
    if res == Issues {
      SubsequencePrefix(filtered, data, r);
    }
    SubsequenceLength(r, data);
  }
}
