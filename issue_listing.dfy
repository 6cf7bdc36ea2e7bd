/**
 * `GitHubAPI.fetch_issues` (github_api.py): the issue listing with pull requests filtered
 * out, optional per-issue details, a `limit` that stops pagination, and the cache around it.
 */
module IssueListing {
  import opened Common
  import opened Records
  import opened GitHubCache
  import opened Paginator
  import opened Dedup
  import opened FetchCommon
  import CacheKey

  function Endpoint(repo: string): string { "/repos/" + repo + "/issues" }

  const BaseParams: seq<Param> := [("state", "all"), ("per_page", "100"), ("direction", "desc")]

  /** `[issue for issue in page if not issue.get('pull_request')]`. */
  function NonPullRequests(page: seq<Record>): (r: seq<Record>)
    ensures forall x :: x in r <==> x in page && !x.pullRequest
    ensures Subsequence(r, page)
  {
    if page == [] then []
    else
      var prefix := page[..|page| - 1];
      var last := page[|page| - 1];
      var kept := NonPullRequests(prefix);
      assert forall x :: x in page <==> x in prefix || x == last;
      if !last.pullRequest then
        assert (kept + [last])[..|kept|] == kept;
        kept + [last]
      else
        SubsequenceExtend(kept, prefix, last);
        assert prefix + [last] == page;
        kept
  }

  /** The detail records of numbered issues, in order; issues whose detail fetch failed are skipped. */
  function DetailsOf(issues: seq<Record>, details: int -> Option<Record>): seq<Record>
    requires AllNumbered(issues)
  {
    if issues == [] then []
    else
      var last := issues[|issues| - 1];
      DetailsOf(issues[..|issues| - 1], details)
      + (if details(last.number.value).Some? then [details(last.number.value).value] else [])
  }

  /** The detail loop of one page; `issue['number']` is read outside any `try`, so a missing number raises. */
  function DetailedIssues(issues: seq<Record>, details: int -> Option<Record>): Result<seq<Record>, Error>
  {
    if AllNumbered(issues) then Success(DetailsOf(issues, details)) else Failure(MissingKey("number"))
  }

  method DetailIssues(issues: seq<Record>, details: int -> Option<Record>) returns (r: Result<seq<Record>, Error>)
    ensures r == DetailedIssues(issues, details)
  {
    var detailed: seq<Record> := [];
    var i := 0;
    while i < |issues|
      invariant 0 <= i <= |issues|
      invariant AllNumbered(issues[..i])
      invariant detailed == DetailsOf(issues[..i], details)
    {
      var issue := issues[i];
      if issue.number.None? {
        return Failure(MissingKey("number"));
      }
      assert issues[..i + 1][..i] == issues[..i];
      assert forall x :: x in issues[..i + 1] ==> x in issues[..i] || x == issue;
      var d := details(issue.number.value);
      if d.Some? {
        detailed := detailed + [d.value];
      }
      i := i + 1;
    }
    assert issues[..|issues|] == issues;
    return Success(detailed);
  }

  /** What one page contributes: its non-PR items, replaced by their details when asked for. */
  function IssuesOfPage(page: seq<Record>, includeDetails: bool, details: int -> Option<Record>): Result<seq<Record>, Error>
  {
    var actual := NonPullRequests(page);
    if includeDetails then DetailedIssues(actual, details) else Success(actual)
  }

  /** `limit and len(issues) >= limit`. */
  predicate LimitReached(count: int, limit: Option<int>)
  {
    Truthy(limit) && count >= limit.value
  }

  /** The pagination loop: extend `acc` page by page and stop once the limit is reached. */
  function GatherIssues(pages: seq<seq<Record>>, acc: seq<Record>, includeDetails: bool,
                        details: int -> Option<Record>, limit: Option<int>): Result<seq<Record>, Error>
    decreases |pages|
  {
    if pages == [] then Success(acc)
    else
      match IssuesOfPage(pages[0], includeDetails, details)
      case Failure(e) => Failure(e)
      case Success(kept) =>
        if LimitReached(|acc + kept|, limit) then Success(acc + kept)
        else GatherIssues(pages[1..], acc + kept, includeDetails, details, limit)
  }

  /** The query of the listing request: `since` when given, else the newest cached date when an entry is held. */
  function RequestParams(since: Option<int>, surviving: Option<Entry>): Result<seq<Param>, Error>
  {
    if since.Some? then Success(BaseParams + [("since", Render(since.value))])
    else if surviving.Some? then
      match NewestCreated(surviving.value.data)
      case Failure(e) => Failure(e)
      case Success(t) => Success(BaseParams + [("since", Render(t))])
    else Success(BaseParams)
  }

  /** Everything after the cache phase up to the write-back: request, pagination, merge. */
  function AfterNetwork(repo: string, remote: Remote, since: Option<int>, surviving: Option<Entry>,
                        includeDetails: bool, limit: Option<int>, useCache: bool): Result<seq<Record>, Error>
  {
    match RequestParams(since, surviving)
    case Failure(e) => Failure(e)
    case Success(params) =>
      match GatherIssues(Pages(remote.listing, 0, BaseUrl + Endpoint(repo), params), [], includeDetails, remote.itemDetails, limit)
      case Failure(e) => Failure(e)
      case Success(issues) =>
        if useCache && surviving.Some? && since.None? then Merged(issues, surviving.value.data, ById)
        else Success(issues)
  }

  method NetworkPhase(repo: string, remote: Remote, since: Option<int>, surviving: Option<Entry>,
                      includeDetails: bool, limit: Option<int>, useCache: bool) returns (r: Result<seq<Record>, Error>)
    ensures r == AfterNetwork(repo, remote, since, surviving, includeDetails, limit, useCache)
  {
    var params := BaseParams;
    if since.Some? {
      params := BaseParams + [("since", Render(since.value))];
    } else if surviving.Some? {
      var newest := NewestCreated(surviving.value.data);
      if newest.Failure? {
        return Failure(newest.error);
      }
      params := BaseParams + [("since", Render(newest.value))];
    }
    var url := BaseUrl + Endpoint(repo);
    ghost var target := GatherIssues(Pages(remote.listing, 0, url, params), [], includeDetails, remote.itemDetails, limit);
    var pager := new Pager(remote.listing, url, params);
    var issues: seq<Record> := [];
    while true
      invariant pager.Valid()
      invariant GatherIssues(pager.Remaining(), issues, includeDetails, remote.itemDetails, limit) == target
      decreases |pager.Remaining()|
    {
      var page := pager.Next();
      if page.None? {
        break;
      }
      var actualIssues := NonPullRequests(page.value);
      if includeDetails {
        var detailed := DetailIssues(actualIssues, remote.itemDetails);
        if detailed.Failure? {
          return Failure(detailed.error);
        }
        actualIssues := detailed.value;
      }
      issues := issues + actualIssues;
      if Truthy(limit) && |issues| >= limit.value {
        break;
      }
    }
    assert target == Success(issues);
    if useCache && surviving.Some? && since.None? {
      r := DedupMerge(issues, surviving.value.data, ById);
    } else {
      r := Success(issues);
    }
  }

  /** The whole of `fetch_issues`: its result and the cache directory it leaves. */
  function FetchOutcome(files: map<string, StoredFile>, hasCache: bool, cacheDir: string, repo: string,
                        limit: Option<int>, useCache: bool, cacheOnly: bool, since: Option<int>,
                        includeDetails: bool, remote: Remote, now: int): Outcome
  {
    var stats := if cacheOnly then map[] else remote.stats;
    var path := CacheKey.CachePath(cacheDir, Endpoint(repo), BaseParams);
    match LoadPhase(Issues, files, hasCache, path, useCache, cacheOnly, since, limit, stats, now)
    case Failure(e) => Outcome(Failure(e), files)
    case Success(Serve(records)) => Outcome(Success(records), files)
    case Success(Miss(surviving)) =>
      if cacheOnly then Outcome(Success([]), files)
      else
        match AfterNetwork(repo, remote, since, surviving, includeDetails, limit, useCache)
        case Failure(e) => Outcome(Failure(e), files)
        case Success(issues) =>
          match Persist(files, hasCache, useCache, path, issues, NoExtra, stats, now)
          case Failure(e) => Outcome(Failure(e), files)
          case Success(written) => Outcome(Success(LimitSlice(issues, limit)), written)
  }

  // ---------------------------------------------------------------- lemmas

  /** Without details no pull request comes out of the pagination loop. */
  lemma {:induction false} GatherHasNoPullRequests(pages: seq<seq<Record>>, acc: seq<Record>,
                                                   details: int -> Option<Record>, limit: Option<int>)
    requires forall x :: x in acc ==> !x.pullRequest
    requires GatherIssues(pages, acc, false, details, limit).Success?
    ensures forall x :: x in GatherIssues(pages, acc, false, details, limit).value ==> !x.pullRequest
    decreases |pages|
  {
    if pages != [] {
      var kept := NonPullRequests(pages[0]);
      assert forall x :: x in acc + kept ==> x in acc || x in kept;
      if !LimitReached(|acc + kept|, limit) {
        GatherHasNoPullRequests(pages[1..], acc + kept, details, limit);
      }
    }
  }

  /** With details, every record is the detail record of some non-PR item that had a number. */
  lemma {:induction false} DetailsComeFromIssues(issues: seq<Record>, details: int -> Option<Record>)
    requires AllNumbered(issues)
    ensures |DetailsOf(issues, details)| <= |issues|
    ensures forall d :: d in DetailsOf(issues, details) ==>
      exists x :: x in issues && details(x.number.value) == Some(d)
    ensures forall x :: x in issues && details(x.number.value).Some? ==>
      details(x.number.value).value in DetailsOf(issues, details)
  {
    if issues != [] {
      var prefix := issues[..|issues| - 1];
      DetailsComeFromIssues(prefix, details);
      assert forall x :: x in issues <==> x in prefix || x == issues[|issues| - 1];
    }
  }

  /** Once the limit is reached no later page is looked at: more pages do not change the result. */
  lemma {:induction false} GatherStopsAtLimit(pages: seq<seq<Record>>, more: seq<seq<Record>>, acc: seq<Record>,
                                              includeDetails: bool, details: int -> Option<Record>, limit: Option<int>)
    requires pages != []
    requires GatherIssues(pages, acc, includeDetails, details, limit).Success?
    requires LimitReached(|GatherIssues(pages, acc, includeDetails, details, limit).value|, limit)
    ensures GatherIssues(pages + more, acc, includeDetails, details, limit) == GatherIssues(pages, acc, includeDetails, details, limit)
    decreases |pages|
  {
    assert (pages + more)[0] == pages[0];
    assert (pages + more)[1..] == pages[1..] + more;
    var kept := IssuesOfPage(pages[0], includeDetails, details).value;
    if !LimitReached(|acc + kept|, limit) {
      GatherStopsAtLimit(pages[1..], more, acc + kept, includeDetails, details, limit);
    }
  }

  /** The accumulated list only grows: it always starts with what was gathered before. */
  lemma {:induction false} GatherExtends(pages: seq<seq<Record>>, acc: seq<Record>, includeDetails: bool,
                                         details: int -> Option<Record>, limit: Option<int>)
    requires GatherIssues(pages, acc, includeDetails, details, limit).Success?
    ensures acc <= GatherIssues(pages, acc, includeDetails, details, limit).value
    decreases |pages|
  {
    if pages != [] {
      var kept := IssuesOfPage(pages[0], includeDetails, details).value;
      if !LimitReached(|acc + kept|, limit) {
        GatherExtends(pages[1..], acc + kept, includeDetails, details, limit);
      }
    }
  }

  /** With `since` given, the entry held after the cache phase plays no part in the request or merge. */
  lemma AfterNetworkIgnoresEntry(repo: string, remote: Remote, t: int, surviving: Option<Entry>,
                                 includeDetails: bool, limit: Option<int>, useCache: bool)
    ensures AfterNetwork(repo, remote, Some(t), surviving, includeDetails, limit, useCache)
         == AfterNetwork(repo, remote, Some(t), None, includeDetails, limit, useCache)
  {
  }

  /**
   * In the whole call the incremental request and the merge never happen: the network result
   * is the one computed as if no entry were held.
   */
  lemma FetchNeverMerges(files: map<string, StoredFile>, hasCache: bool, cacheDir: string, repo: string,
                         limit: Option<int>, useCache: bool, since: Option<int>,
                         includeDetails: bool, remote: Remote, now: int)
    requires var path := CacheKey.CachePath(cacheDir, Endpoint(repo), BaseParams);
      LoadPhase(Issues, files, hasCache, path, useCache, false, since, limit, remote.stats, now).Success?
    ensures var path := CacheKey.CachePath(cacheDir, Endpoint(repo), BaseParams);
      var phase := LoadPhase(Issues, files, hasCache, path, useCache, false, since, limit, remote.stats, now).value;
      phase.Miss? ==>
        AfterNetwork(repo, remote, since, phase.surviving, includeDetails, limit, useCache)
        == AfterNetwork(repo, remote, since, None, includeDetails, limit, useCache)
  {
    var path := CacheKey.CachePath(cacheDir, Endpoint(repo), BaseParams);
    var phase := LoadPhase(Issues, files, hasCache, path, useCache, false, since, limit, remote.stats, now).value;
    if phase.Miss? && phase.surviving.Some? {
      var loaded := if (useCache || false) && hasCache then Lookup(files, path, false, now) else Success(None);
      SurvivingEntryNeedsSince(Issues, loaded.value, remote.stats, since, false, limit);
    }
  }

  /** A positive `limit` bounds the result, whether it comes from the cache or the network. */
  lemma FetchRespectsLimit(files: map<string, StoredFile>, hasCache: bool, cacheDir: string, repo: string,
                           limit: Option<int>, useCache: bool, cacheOnly: bool, since: Option<int>,
                           includeDetails: bool, remote: Remote, now: int)
    requires limit.Some? && limit.value > 0
    requires FetchOutcome(files, hasCache, cacheDir, repo, limit, useCache, cacheOnly, since, includeDetails, remote, now).result.Success?
    ensures |FetchOutcome(files, hasCache, cacheDir, repo, limit, useCache, cacheOnly, since, includeDetails, remote, now).result.value| <= limit.value
  {
  }

  /**
   * In cache-only mode the call leaves the cache untouched and does not depend on anything
   * the server would answer.
   */
  lemma CacheOnlyIsOffline(files: map<string, StoredFile>, hasCache: bool, cacheDir: string, repo: string,
                           limit: Option<int>, useCache: bool, since: Option<int>,
                           includeDetails: bool, remote: Remote, other: Remote, now: int)
    ensures FetchOutcome(files, hasCache, cacheDir, repo, limit, useCache, true, since, includeDetails, remote, now).files == files
    ensures FetchOutcome(files, hasCache, cacheDir, repo, limit, useCache, true, since, includeDetails, remote, now)
         == FetchOutcome(files, hasCache, cacheDir, repo, limit, useCache, true, since, includeDetails, other, now)
  {
  }

  /**
   * On the network path without details the call never returns a pull request, whether or
   * not the cache phase held an entry that `since` set aside.
   */
  lemma NetworkResultHasNoPullRequests(files: map<string, StoredFile>, hasCache: bool, cacheDir: string, repo: string,
                                       limit: Option<int>, useCache: bool, since: Option<int>, remote: Remote, now: int)
    requires var path := CacheKey.CachePath(cacheDir, Endpoint(repo), BaseParams);
      var phase := LoadPhase(Issues, files, hasCache, path, useCache, false, since, limit, remote.stats, now);
      phase.Success? && phase.value.Miss?
    requires FetchOutcome(files, hasCache, cacheDir, repo, limit, useCache, false, since, false, remote, now).result.Success?
    ensures var issues := FetchOutcome(files, hasCache, cacheDir, repo, limit, useCache, false, since, false, remote, now).result.value;
      forall x :: x in issues ==> !x.pullRequest
  {
    FetchNeverMerges(files, hasCache, cacheDir, repo, limit, useCache, since, false, remote, now);
    var params := RequestParams(since, None).value;
    var pages := Pages(remote.listing, 0, BaseUrl + Endpoint(repo), params);
    GatherHasNoPullRequests(pages, [], remote.itemDetails, limit);
  }
}
