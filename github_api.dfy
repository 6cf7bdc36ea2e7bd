/**
 * The `GitHubAPI` client (github_api.py): its cache settings and the cache object it owns
 * (`None` when built without caching). Each `fetch_*` method resolves its per-call overrides,
 * loads through the cache object, decides with the cache phase, goes to the network, and
 * writes back through the same object; its contract ties the result and the new cache
 * directory to the listing's `FetchOutcome`.
 */
module GitHubApi {
  import opened Common
  import opened Records
  import opened GitHubCache
  import opened FetchCommon
  import IssueListing
  import ContributorListing
  import MemberListing
  import PullListing

  /** `self.use_cache if use_cache is None else use_cache`. */
  function Resolve(setting: bool, override: Option<bool>): bool
  {
    if override.Some? then override.value else setting
  }

  class Client {
    const useCache: bool
    const useCacheOnly: bool
    const cache: Cache?

    /** The cache directory's files as the call sees them; none without a cache object. */
    ghost function Files(): map<string, StoredFile>
      reads this, cache
    {
      if cache == null then map[] else cache.files
    }

    function CacheDir(): string
      reads this
    {
      if cache == null then "" else cache.cacheDir
    }

    constructor (useCache: bool, useCacheOnly: bool, cacheDir: string, files: map<string, StoredFile>)
      ensures this.useCache == useCache && this.useCacheOnly == useCacheOnly
      ensures useCache <==> cache != null
      ensures cache != null ==> fresh(cache) && cache.cacheDir == cacheDir && cache.files == files
    {
      this.useCache := useCache;
      this.useCacheOnly := useCacheOnly;
      if useCache {
        cache := new Cache(cacheDir, files);
      } else {
        cache := null;
      }
    }

    /** Loading through the cache object (when the call uses one) followed by the cache phase. */
    method CachePhase(res: Resource, path: string, useCache: bool, cacheOnly: bool, since: Option<int>,
                      limit: Option<int>, stats: Stats, now: int) returns (r: Result<CachePhase, Error>)
      ensures r == LoadPhase(res, Files(), cache != null, path, useCache, cacheOnly, since, limit, stats, now)
    {
      var loaded: Option<Entry> := None;
      if (useCache || cacheOnly) && cache != null {
        var l := cache.Load(path, cacheOnly, now);
        if l.Failure? {
          return Failure(l.error);
        }
        loaded := l.value;
      }
      r := CachePhaseOf(res, loaded, stats, since, cacheOnly, limit);
    }

    /** The write-back: `self.cache.save(...)` when the call uses the cache and the object exists. */
    method WriteBack(useCache: bool, path: string, data: seq<Record>, extra: ExtraMetadata, stats: Stats, now: int)
      returns (raised: Option<Error>)
      modifies cache
      ensures var p := Persist(old(Files()), cache != null, useCache, path, data, extra, stats, now);
        && (raised.None? <==> p.Success?)
        && (raised.Some? ==> raised.value == p.error && Files() == old(Files()))
        && (raised.None? ==> Files() == p.value)
    {
      raised := None;
      if useCache && cache != null {
        raised := cache.Save(path, data, extra, stats, now);
      }
    }

    method FetchIssues(repo: string, limit: Option<int>, since: Option<int>, useCacheOverride: Option<bool>,
                       cacheOnlyOverride: Option<bool>, includeDetails: bool, remote: Remote, now: int)
      returns (r: Result<seq<Record>, Error>)
      modifies cache
      ensures var out := IssueListing.FetchOutcome(old(Files()), cache != null, CacheDir(), repo, limit,
                Resolve(useCache, useCacheOverride), Resolve(useCacheOnly, cacheOnlyOverride), since,
                includeDetails, remote, now);
        r == out.result && Files() == out.files
    {
      var uc := Resolve(useCache, useCacheOverride);
      var co := Resolve(useCacheOnly, cacheOnlyOverride);
      var stats := if co then map[] else remote.stats;
      var path := "";
      if cache != null {
        path := cache.GetCachePath(IssueListing.Endpoint(repo), IssueListing.BaseParams);
      }
      var phase := CachePhase(Issues, path, uc, co, since, limit, stats, now);
      if phase.Failure? {
        return Failure(phase.error);
      }
      if phase.value.Serve? {
        return Success(phase.value.records);
      }
      if co {
        return Success([]);
      }
      var issues := IssueListing.NetworkPhase(repo, remote, since, phase.value.surviving, includeDetails, limit, uc);
      if issues.Failure? {
        return issues;
      }
      var raised := WriteBack(uc, path, issues.value, NoExtra, stats, now);
      if raised.Some? {
        return Failure(raised.value);
      }
      return Success(LimitSlice(issues.value, limit));
    }

    method FetchContributors(owner: string, name: string, since: Option<int>, useCacheOverride: Option<bool>,
                             cacheOnlyOverride: Option<bool>, includeDetails: bool, remote: Remote, now: int)
      returns (r: Result<seq<Record>, Error>)
      modifies cache
      ensures var out := ContributorListing.FetchOutcome(old(Files()), cache != null, CacheDir(), owner, name,
                Resolve(useCache, useCacheOverride), Resolve(useCacheOnly, cacheOnlyOverride), since,
                includeDetails, remote, now);
        r == out.result && Files() == out.files
    {
      var uc := Resolve(useCache, useCacheOverride);
      var co := Resolve(useCacheOnly, cacheOnlyOverride);
      var stats := if co then map[] else remote.stats;
      var path := "";
      if cache != null {
        path := cache.GetCachePath(ContributorListing.Endpoint(owner, name), ContributorListing.ListingParams(since));
      }
      var phase := CachePhase(Contributors, path, uc, co, since, None, stats, now);
      if phase.Failure? {
        return Failure(phase.error);
      }
      if phase.value.Serve? {
        return Success(phase.value.records);
      }
      if co {
        return Success([]);
      }
      var contributors := ContributorListing.NetworkPhase(owner, name, remote, since, phase.value.surviving, includeDetails, uc);
      if contributors.Failure? {
        return contributors;
      }
      var extra := WithDateRange(RangeOf(FirstContributionDates(contributors.value)));
      var raised := WriteBack(uc, path, contributors.value, extra, stats, now);
      if raised.Some? {
        return Failure(raised.value);
      }
      return contributors;
    }

    method FetchOrgMembers(org: string, useCacheOverride: Option<bool>, cacheOnlyOverride: Option<bool>,
                           includeDetails: bool, remote: Remote, now: int)
      returns (r: Result<seq<Record>, Error>)
      modifies cache
      ensures var out := MemberListing.FetchOutcome(old(Files()), cache != null, CacheDir(), org,
                Resolve(useCache, useCacheOverride), Resolve(useCacheOnly, cacheOnlyOverride),
                includeDetails, remote, now);
        r == out.result && Files() == out.files
    {
      var uc := Resolve(useCache, useCacheOverride);
      var co := Resolve(useCacheOnly, cacheOnlyOverride);
      var orgStats := if co then map[] else remote.stats;
      var path := "";
      if cache != null {
        path := cache.GetCachePath(MemberListing.Endpoint(org), MemberListing.ListingParams);
      }
      var phase := CachePhase(Members, path, uc, co, None, None, orgStats, now);
      if phase.Failure? {
        return Failure(phase.error);
      }
      if phase.value.Serve? {
        return Success(phase.value.records);
      }
      if co {
        return Success([]);
      }
      var members := MemberListing.NetworkPhase(org, remote, includeDetails);
      if members.Failure? {
        return members;
      }
      var raised := WriteBack(uc, path, members.value, NoExtra, map[], now);
      if raised.Some? {
        return Failure(raised.value);
      }
      return members;
    }

    method FetchPullRequests(owner: string, name: string, state: string, since: Option<int>,
                             useCacheOverride: Option<bool>, cacheOnlyOverride: Option<bool>,
                             includeDetails: bool, remote: Remote, now: int)
      returns (r: Result<seq<Record>, Error>)
      modifies cache
      ensures var out := PullListing.FetchOutcome(old(Files()), cache != null, CacheDir(), owner, name, state,
                Resolve(useCache, useCacheOverride), Resolve(useCacheOnly, cacheOnlyOverride), since,
                includeDetails, remote, now);
        r == out.result && Files() == out.files
    {
      var uc := Resolve(useCache, useCacheOverride);
      var co := Resolve(useCacheOnly, cacheOnlyOverride);
      var stats := if co then map[] else remote.stats;
      var path := "";
      if cache != null {
        path := cache.GetCachePath(PullListing.Endpoint(owner, name), PullListing.BaseParams(state));
      }
      var phase := CachePhase(PullRequests, path, uc, co, since, None, stats, now);
      if phase.Failure? {
        return Failure(phase.error);
      }
      if phase.value.Serve? {
        return Success(phase.value.records);
      }
      if co {
        return Success([]);
      }
      var prs := PullListing.NetworkPhase(owner, name, state, remote, since, phase.value.surviving, includeDetails, uc);
      if prs.Failure? || !uc {
        return prs;
      }
      var range := PullListing.PullRange(prs.value);
      if range.Failure? {
        return Failure(range.error);
      }
      var raised := WriteBack(uc, path, prs.value, WithDateRange(range.value), stats, now);
      if raised.Some? {
        return Failure(raised.value);
      }
      return prs;
    }
  }
}
