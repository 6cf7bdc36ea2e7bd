/**
 * `GitHubAPI.fetch_pull_requests` (github_api.py): the pull-request listing. With details each
 * pull request is replaced by its detail record carrying its reviews, or kept as listed when
 * the detail request fails. Before the write-back the call derives its own `date_range` and
 * state counts, which raise on a pull request without `created_at` or `state`.
 */
module PullListing {
  import opened Common
  import opened Records
  import opened GitHubCache
  import opened Paginator
  import opened Dedup
  import opened FetchCommon
  import CacheKey

  function Endpoint(owner: string, name: string): string { "/repos/" + owner + "/" + name + "/pulls" }

  /** The listing query without `since`: the part that makes up the cache key. */
  function BaseParams(state: string): seq<Param>
  {
    [("state", state), ("sort", "created"), ("direction", "desc")]
  }

  /** The record that stands for a numbered pull request once details are fetched. */
  function Detailed(pr: Record, details: int -> Option<Record>, reviews: int -> seq<int>): (r: Record)
    requires pr.number.Some?
    ensures details(pr.number.value).None? ==> r == pr
    ensures details(pr.number.value).Some? ==>
      r.reviews == Some(reviews(pr.number.value)) &&
      r.(reviews := details(pr.number.value).value.reviews) == details(pr.number.value).value
  {
    var n := pr.number.value;
    match details(n)
    case None => pr
    case Some(d) => d.(reviews := Some(reviews(n)))
  }

  /** Every pull request of a page replaced by its detailed record, in order. */
  function DetailedAll(page: seq<Record>, details: int -> Option<Record>, reviews: int -> seq<int>): (r: seq<Record>)
    requires AllNumbered(page)
    ensures |r| == |page|
    ensures forall i :: 0 <= i < |page| ==> r[i] == Detailed(page[i], details, reviews)
  {
    if page == [] then []
    else DetailedAll(page[..|page| - 1], details, reviews) + [Detailed(page[|page| - 1], details, reviews)]
  }

  /**
   * What one page contributes. `pr['number']` is read inside the `try` and again in its
   * `except` handler, so a pull request without a number raises out of the call.
   */
  function PullsOfPage(page: seq<Record>, includeDetails: bool,
                       details: int -> Option<Record>, reviews: int -> seq<int>): Result<seq<Record>, Error>
  {
    if !includeDetails then Success(page)
    else if AllNumbered(page) then Success(DetailedAll(page, details, reviews))
    else Failure(MissingKey("number"))
  }

  /** The detail loop over one page, building `detailed_prs`. */
  method DetailPage(page: seq<Record>, details: int -> Option<Record>, reviews: int -> seq<int>)
    returns (r: Result<seq<Record>, Error>)
    ensures r == PullsOfPage(page, true, details, reviews)
  {
    var detailed: seq<Record> := [];
    var i := 0;
    while i < |page|
      invariant 0 <= i <= |page|
      invariant AllNumbered(page[..i])
      invariant detailed == DetailedAll(page[..i], details, reviews)
    {
      var pr := page[i];
      if pr.number.None? {
        assert pr in page;
        return Failure(MissingKey("number"));
      }
      assert page[..i + 1][..i] == page[..i];
      assert forall x :: x in page[..i + 1] ==> x in page[..i] || x == pr;
      var d := details(pr.number.value);
      if d.Some? {
        detailed := detailed + [d.value.(reviews := Some(reviews(pr.number.value)))];
      } else {
        detailed := detailed + [pr];
      }
      i := i + 1;
    }
    assert page[..|page|] == page;
    return Success(detailed);
  }

  /** The pagination loop: extend `acc` with what each page contributes. */
  function GatherPulls(pages: seq<seq<Record>>, acc: seq<Record>, includeDetails: bool,
                       details: int -> Option<Record>, reviews: int -> seq<int>): Result<seq<Record>, Error>
    decreases |pages|
  {
    if pages == [] then Success(acc)
    else
      match PullsOfPage(pages[0], includeDetails, details, reviews)
      case Failure(e) => Failure(e)
      case Success(kept) => GatherPulls(pages[1..], acc + kept, includeDetails, details, reviews)
  }

  /** The query of the listing request: `since` when given, else the newest cached date when an entry is held. */
  function RequestParams(state: string, since: Option<int>, surviving: Option<Entry>): Result<seq<Param>, Error>
  {
    if since.Some? then Success(BaseParams(state) + [("since", Render(since.value))])
    else if surviving.Some? then
      match NewestCreated(surviving.value.data)
      case Failure(e) => Failure(e)
      case Success(t) => Success(BaseParams(state) + [("since", Render(t))])
    else Success(BaseParams(state))
  }

  /** Everything after the cache phase up to the metadata: request, pagination, merge. */
  function AfterNetwork(owner: string, name: string, state: string, remote: Remote, since: Option<int>,
                        surviving: Option<Entry>, includeDetails: bool, useCache: bool): Result<seq<Record>, Error>
  {
    match RequestParams(state, since, surviving)
    case Failure(e) => Failure(e)
    case Success(params) =>
      var pages := Pages(remote.listing, 0, BaseUrl + Endpoint(owner, name), params);
      match GatherPulls(pages, [], includeDetails, remote.itemDetails, remote.reviews)
      case Failure(e) => Failure(e)
      case Success(prs) =>
        if useCache && surviving.Some? && since.None? then Merged(prs, surviving.value.data, ByNumber)
        else Success(prs)
  }

  method NetworkPhase(owner: string, name: string, state: string, remote: Remote, since: Option<int>,
                      surviving: Option<Entry>, includeDetails: bool, useCache: bool) returns (r: Result<seq<Record>, Error>)
    ensures r == AfterNetwork(owner, name, state, remote, since, surviving, includeDetails, useCache)
  {
    var params := BaseParams(state);
    if since.Some? {
      params := params + [("since", Render(since.value))];
    } else if surviving.Some? {
      var newest := NewestCreated(surviving.value.data);
      if newest.Failure? {
        return Failure(newest.error);
      }
      params := params + [("since", Render(newest.value))];
    }
    var url := BaseUrl + Endpoint(owner, name);
    ghost var target := GatherPulls(Pages(remote.listing, 0, url, params), [], includeDetails, remote.itemDetails, remote.reviews);
    var pager := new Pager(remote.listing, url, params);
    var prs: seq<Record> := [];
    while true
      invariant pager.Valid()
      invariant GatherPulls(pager.Remaining(), prs, includeDetails, remote.itemDetails, remote.reviews) == target
      decreases |pager.Remaining()|
    {
      var page := pager.Next();
      if page.None? {
        break;
      }
      var kept := page.value;
      if includeDetails {
        var detailed := DetailPage(page.value, remote.itemDetails, remote.reviews);
        if detailed.Failure? {
          return Failure(detailed.error);
        }
        kept := detailed.value;
      }
      prs := prs + kept;
    }
    assert target == Success(prs);
    if useCache && surviving.Some? && since.None? {
      r := DedupMerge(prs, surviving.value.data, ByNumber);
    } else {
      r := Success(prs);
    }
  }

  predicate AllStated(data: seq<Record>) { forall r :: r in data ==> r.state.Some? }

  /**
   * The `date_range` the call passes to `save`: `None` for no pull requests, else the earliest
   * `created_at` to the latest `updated_at` (or `created_at`). `min` raises on a missing
   * `created_at`, and the state-count loop that follows raises on a missing `state`.
   */
  function PullRange(prs: seq<Record>): Result<Option<DateRange>, Error>
  {
    if prs == [] then Success(None)
    else if !AllCreated(prs) then Failure(MissingKey("created_at"))
    else if !AllStated(prs) then Failure(MissingKey("state"))
    else Success(Some(DateRange(MinOf(CreatedTimes(prs)), MaxOf(TouchedTimes(prs)))))
  }

  /** The whole of `fetch_pull_requests`: its result and the cache directory it leaves. */
  function FetchOutcome(files: map<string, StoredFile>, hasCache: bool, cacheDir: string, owner: string, name: string,
                        state: string, useCache: bool, cacheOnly: bool, since: Option<int>,
                        includeDetails: bool, remote: Remote, now: int): Outcome
  {
    var stats := if cacheOnly then map[] else remote.stats;
    var path := CacheKey.CachePath(cacheDir, Endpoint(owner, name), BaseParams(state));
    match LoadPhase(PullRequests, files, hasCache, path, useCache, cacheOnly, since, None, stats, now)
    case Failure(e) => Outcome(Failure(e), files)
    case Success(Serve(records)) => Outcome(Success(records), files)
    case Success(Miss(surviving)) =>
      if cacheOnly then Outcome(Success([]), files)
      else
        match AfterNetwork(owner, name, state, remote, since, surviving, includeDetails, useCache)
        case Failure(e) => Outcome(Failure(e), files)
        case Success(prs) =>
          if !useCache then Outcome(Success(prs), files)
          else
            match PullRange(prs)
            case Failure(e) => Outcome(Failure(e), files)
            case Success(range) =>
              match Persist(files, hasCache, useCache, path, prs, WithDateRange(range), stats, now)
              case Failure(e) => Outcome(Failure(e), files)
              case Success(written) => Outcome(Success(prs), written)
  }

  // ---------------------------------------------------------------- lemmas

  /** Details never add or drop a pull request; without details the pages are returned as listed. */
  lemma {:induction false} GatherKeepsPulls(pages: seq<seq<Record>>, acc: seq<Record>, includeDetails: bool,
                                            details: int -> Option<Record>, reviews: int -> seq<int>)
    requires GatherPulls(pages, acc, includeDetails, details, reviews).Success?
    ensures |GatherPulls(pages, acc, includeDetails, details, reviews).value| == |acc| + |Flatten(pages)|
    ensures acc <= GatherPulls(pages, acc, includeDetails, details, reviews).value
    ensures !includeDetails ==> GatherPulls(pages, acc, includeDetails, details, reviews).value == acc + Flatten(pages)
    decreases |pages|
  {
    if pages != [] {
      var kept := PullsOfPage(pages[0], includeDetails, details, reviews).value;
      GatherKeepsPulls(pages[1..], acc + kept, includeDetails, details, reviews);
      FlattenCons(pages);
      assert (acc + kept) + Flatten(pages[1..]) == acc + (kept + Flatten(pages[1..]));
    }
  }

  /**
   * With details, each record of a page is the pull request itself (detail request failed) or
   * its detail record with `reviews` set to the pull request's reviews.
   */
  lemma DetailedPagePulls(page: seq<Record>, details: int -> Option<Record>, reviews: int -> seq<int>)
    requires PullsOfPage(page, true, details, reviews).Success?
    ensures var r := PullsOfPage(page, true, details, reviews).value;
      && |r| == |page|
      && forall i :: 0 <= i < |r| ==>
           var n := page[i].number.value;
           (details(n).None? && r[i] == page[i])
           || (details(n).Some? && r[i].reviews == Some(reviews(n)) && r[i].(reviews := details(n).value.reviews) == details(n).value)
  {
    var r := PullsOfPage(page, true, details, reviews).value;
    forall i | 0 <= i < |r|
      ensures var n := page[i].number.value;
        (details(n).None? && r[i] == page[i])
        || (details(n).Some? && r[i].reviews == Some(reviews(n)) && r[i].(reviews := details(n).value.reviews) == details(n).value)
    {
      assert page[i] in page;
    }
  }

  /**
   * The range handed to `save`: absent exactly for no pull requests; otherwise its start is
   * the earliest creation and its end the latest update (creation when never updated). It
   * raises exactly when some pull request lacks `created_at` or `state`.
   */
  lemma PullRangeBounds(prs: seq<Record>)
    ensures PullRange(prs).Failure? <==> prs != [] && (!AllCreated(prs) || !AllStated(prs))
    ensures PullRange(prs).Success? ==> (PullRange(prs).value.None? <==> prs == [])
    ensures PullRange(prs).Success? && prs != [] ==>
      var range := PullRange(prs).value.value;
      && (exists p :: p in prs && p.createdAt == Some(range.start))
      && (forall p :: p in prs ==> range.start <= p.createdAt.value)
      && (forall p :: p in prs && p.updatedAt.Some? ==> p.updatedAt.value <= range.end)
      && (forall p :: p in prs && p.updatedAt.None? ==> p.createdAt.value <= range.end)
      && (exists p :: p in prs && (if p.updatedAt.Some? then p.updatedAt.value else p.createdAt.value) == range.end)
  {
    if PullRange(prs).Success? && prs != [] {
      var created := CreatedTimes(prs);
      var touched := TouchedTimes(prs);
      var range := PullRange(prs).value.value;
      var i :| 0 <= i < |created| && created[i] == range.start;
      assert prs[i] in prs;
      var k :| 0 <= k < |touched| && touched[k] == range.end;
      assert prs[k] in prs;
      forall p | p in prs
        ensures range.start <= p.createdAt.value
        ensures p.updatedAt.Some? ==> p.updatedAt.value <= range.end
        ensures p.updatedAt.None? ==> p.createdAt.value <= range.end
      {
        var j :| 0 <= j < |prs| && prs[j] == p;
        assert created[j] in created;
        assert touched[j] in touched;
      }
    }
  }

  /**
   * With a cache, a pull request without `state` fails the call before anything is written,
   * even though the listing itself succeeded.
   */
  lemma MissingStateFailsCall(files: map<string, StoredFile>, hasCache: bool, cacheDir: string, owner: string, name: string,
                              state: string, since: Option<int>, includeDetails: bool, remote: Remote, now: int)
    requires var path := CacheKey.CachePath(cacheDir, Endpoint(owner, name), BaseParams(state));
      LoadPhase(PullRequests, files, hasCache, path, true, false, since, None, remote.stats, now) == Success(Miss(None))
    requires AfterNetwork(owner, name, state, remote, since, None, includeDetails, true).Success?
    requires var prs := AfterNetwork(owner, name, state, remote, since, None, includeDetails, true).value;
      AllCreated(prs) && exists p :: p in prs && p.state.None?
    ensures FetchOutcome(files, hasCache, cacheDir, owner, name, state, true, false, since, includeDetails, remote, now)
         == Outcome(Failure(MissingKey("state")), files)
  {
  }

  /** The incremental request and the merge never happen: the network result is the one computed as if no entry were held. */
  lemma FetchNeverMerges(files: map<string, StoredFile>, hasCache: bool, cacheDir: string, owner: string, name: string,
                         state: string, useCache: bool, since: Option<int>, includeDetails: bool, remote: Remote, now: int)
    requires var path := CacheKey.CachePath(cacheDir, Endpoint(owner, name), BaseParams(state));
      LoadPhase(PullRequests, files, hasCache, path, useCache, false, since, None, remote.stats, now).Success?
    ensures var path := CacheKey.CachePath(cacheDir, Endpoint(owner, name), BaseParams(state));
      var phase := LoadPhase(PullRequests, files, hasCache, path, useCache, false, since, None, remote.stats, now).value;
      phase.Miss? ==>
        AfterNetwork(owner, name, state, remote, since, phase.surviving, includeDetails, useCache)
        == AfterNetwork(owner, name, state, remote, since, None, includeDetails, useCache)
  {
    var path := CacheKey.CachePath(cacheDir, Endpoint(owner, name), BaseParams(state));
    var phase := LoadPhase(PullRequests, files, hasCache, path, useCache, false, since, None, remote.stats, now).value;
    if phase.Miss? && phase.surviving.Some? {
      var loaded := if useCache && hasCache then Lookup(files, path, false, now) else Success(None);
      SurvivingEntryNeedsSince(PullRequests, loaded.value, remote.stats, since, false, None);
    }
  }

  /** In cache-only mode the call leaves the cache untouched and does not depend on the server. */
  lemma CacheOnlyIsOffline(files: map<string, StoredFile>, hasCache: bool, cacheDir: string, owner: string, name: string,
                           state: string, useCache: bool, since: Option<int>, includeDetails: bool,
                           remote: Remote, other: Remote, now: int)
    ensures FetchOutcome(files, hasCache, cacheDir, owner, name, state, useCache, true, since, includeDetails, remote, now).files == files
    ensures FetchOutcome(files, hasCache, cacheDir, owner, name, state, useCache, true, since, includeDetails, remote, now)
         == FetchOutcome(files, hasCache, cacheDir, owner, name, state, useCache, true, since, includeDetails, other, now)
  {
  }
}
