/**
 * `GitHubAPI.fetch_org_members` (github_api.py): the organization's member listing. With
 * details, each member of a page is replaced by its `/users/{login}` record (carrying the
 * organization membership when that request answers), or kept as listed when the user
 * request fails. The cache entry has no date range and is served whole.
 */
module MemberListing {
  import opened Common
  import opened Records
  import opened GitHubCache
  import opened Paginator
  import opened FetchCommon
  import CacheKey

  function Endpoint(org: string): string { "/orgs/" + org + "/members" }

  const ListingParams: seq<Param> := [("role", "all")]

  /** The record that stands for a member with a login once details are fetched. */
  function Detailed(m: Record, user: string -> Option<Record>, membership: string -> Option<int>): (r: Record)
    requires m.login.Some?
    ensures user(m.login.value).None? ==> r == m
    ensures user(m.login.value).Some? ==>
      r.(orgMembership := user(m.login.value).value.orgMembership) == user(m.login.value).value
    ensures user(m.login.value).Some? ==>
      r.orgMembership == (if membership(m.login.value).Some? then membership(m.login.value) else user(m.login.value).value.orgMembership)
  {
    var login := m.login.value;
    match user(login)
    case None => m
    case Some(u) => if membership(login).Some? then u.(orgMembership := membership(login)) else u
  }

  /** Every member of a page replaced by its detailed record, in order. */
  function DetailedAll(page: seq<Record>, user: string -> Option<Record>, membership: string -> Option<int>): (r: seq<Record>)
    requires AllLogged(page)
    ensures |r| == |page|
    ensures forall i :: 0 <= i < |page| ==> r[i] == Detailed(page[i], user, membership)
  {
    if page == [] then []
    else DetailedAll(page[..|page| - 1], user, membership) + [Detailed(page[|page| - 1], user, membership)]
  }

  /**
   * What one page contributes. `member['login']` is read inside the `try` and again in its
   * `except` handler, so a member without a login raises out of the call.
   */
  function MembersOfPage(page: seq<Record>, includeDetails: bool,
                         user: string -> Option<Record>, membership: string -> Option<int>): Result<seq<Record>, Error>
  {
    if !includeDetails then Success(page)
    else if AllLogged(page) then Success(DetailedAll(page, user, membership))
    else Failure(MissingKey("login"))
  }

  /** The detail loop over one page, building `detailed_members`. */
  method DetailPage(page: seq<Record>, user: string -> Option<Record>, membership: string -> Option<int>)
    returns (r: Result<seq<Record>, Error>)
    ensures r == MembersOfPage(page, true, user, membership)
  {
    var detailed: seq<Record> := [];
    var i := 0;
    while i < |page|
      invariant 0 <= i <= |page|
      invariant AllLogged(page[..i])
      invariant detailed == DetailedAll(page[..i], user, membership)
    {
      var member := page[i];
      if member.login.None? {
        assert member in page;
        return Failure(MissingKey("login"));
      }
      assert page[..i + 1][..i] == page[..i];
      assert forall x :: x in page[..i + 1] ==> x in page[..i] || x == member;
      var login := member.login.value;
      var details := user(login);
      if details.Some? {
        var userDetails := details.value;
        if membership(login).Some? {
          userDetails := userDetails.(orgMembership := membership(login));
        }
        detailed := detailed + [userDetails];
      } else {
        detailed := detailed + [member];
      }
      i := i + 1;
    }
    assert page[..|page|] == page;
    return Success(detailed);
  }

  /** The pagination loop: extend `acc` with what each page contributes. */
  function GatherMembers(pages: seq<seq<Record>>, acc: seq<Record>, includeDetails: bool,
                         user: string -> Option<Record>, membership: string -> Option<int>): Result<seq<Record>, Error>
    decreases |pages|
  {
    if pages == [] then Success(acc)
    else
      match MembersOfPage(pages[0], includeDetails, user, membership)
      case Failure(e) => Failure(e)
      case Success(kept) => GatherMembers(pages[1..], acc + kept, includeDetails, user, membership)
  }

  /** The network part of the call: every page of the listing, detailed when asked for. */
  function AfterNetwork(org: string, remote: Remote, includeDetails: bool): Result<seq<Record>, Error>
  {
    var pages := Pages(remote.listing, 0, BaseUrl + Endpoint(org), ListingParams);
    GatherMembers(pages, [], includeDetails, remote.user, remote.membership)
  }

  method NetworkPhase(org: string, remote: Remote, includeDetails: bool) returns (r: Result<seq<Record>, Error>)
    ensures r == AfterNetwork(org, remote, includeDetails)
  {
    var url := BaseUrl + Endpoint(org);
    ghost var target := GatherMembers(Pages(remote.listing, 0, url, ListingParams), [], includeDetails, remote.user, remote.membership);
    var pager := new Pager(remote.listing, url, ListingParams);
    var members: seq<Record> := [];
    while true
      invariant pager.Valid()
      invariant GatherMembers(pager.Remaining(), members, includeDetails, remote.user, remote.membership) == target
      decreases |pager.Remaining()|
    {
      var page := pager.Next();
      if page.None? {
        break;
      }
      var kept := page.value;
      if includeDetails {
        var detailed := DetailPage(page.value, remote.user, remote.membership);
        if detailed.Failure? {
          return Failure(detailed.error);
        }
        kept := detailed.value;
      }
      members := members + kept;
    }
    return Success(members);
  }

  /**
   * The whole of `fetch_org_members`. The organization summary (`org_stats`) drives the
   * completeness check; `save` is called without repository statistics.
   */
  function FetchOutcome(files: map<string, StoredFile>, hasCache: bool, cacheDir: string, org: string,
                        useCache: bool, cacheOnly: bool, includeDetails: bool, remote: Remote, now: int): Outcome
  {
    var orgStats := if cacheOnly then map[] else remote.stats;
    var path := CacheKey.CachePath(cacheDir, Endpoint(org), ListingParams);
    match LoadPhase(Members, files, hasCache, path, useCache, cacheOnly, None, None, orgStats, now)
    case Failure(e) => Outcome(Failure(e), files)
    case Success(Serve(records)) => Outcome(Success(records), files)
    case Success(Miss(_)) =>
      if cacheOnly then Outcome(Success([]), files)
      else
        match AfterNetwork(org, remote, includeDetails)
        case Failure(e) => Outcome(Failure(e), files)
        case Success(members) =>
          match Persist(files, hasCache, useCache, path, members, NoExtra, map[], now)
          case Failure(e) => Outcome(Failure(e), files)
          case Success(written) => Outcome(Success(members), written)
  }

  // ---------------------------------------------------------------- lemmas

  /**
   * Details never add or drop a member: each listed member yields one record, either itself
   * (user request failed) or its user record, with the membership attached when available.
   */
  lemma {:induction false} GatherKeepsMembers(pages: seq<seq<Record>>, acc: seq<Record>, includeDetails: bool,
                                              user: string -> Option<Record>, membership: string -> Option<int>)
    requires GatherMembers(pages, acc, includeDetails, user, membership).Success?
    ensures |GatherMembers(pages, acc, includeDetails, user, membership).value| == |acc| + |Flatten(pages)|
    ensures acc <= GatherMembers(pages, acc, includeDetails, user, membership).value
    ensures !includeDetails ==> GatherMembers(pages, acc, includeDetails, user, membership).value == acc + Flatten(pages)
    decreases |pages|
  {
    if pages != [] {
      var kept := MembersOfPage(pages[0], includeDetails, user, membership).value;
      GatherKeepsMembers(pages[1..], acc + kept, includeDetails, user, membership);
      FlattenCons(pages);
      assert (acc + kept) + Flatten(pages[1..]) == acc + (kept + Flatten(pages[1..]));
    }
  }

  /** With details, each record of a page is the member itself or the user record for its login. */
  lemma DetailedPageMembers(page: seq<Record>, user: string -> Option<Record>, membership: string -> Option<int>)
    requires MembersOfPage(page, true, user, membership).Success?
    ensures var r := MembersOfPage(page, true, user, membership).value;
      && |r| == |page|
      && forall i :: 0 <= i < |r| ==>
           var login := page[i].login.value;
           (user(login).None? && r[i] == page[i])
           || (user(login).Some? && r[i].(orgMembership := user(login).value.orgMembership) == user(login).value)
  {
    var r := MembersOfPage(page, true, user, membership).value;
    forall i | 0 <= i < |r|
      ensures var login := page[i].login.value;
        (user(login).None? && r[i] == page[i])
        || (user(login).Some? && r[i].(orgMembership := user(login).value.orgMembership) == user(login).value)
    {
      assert page[i] in page;
    }
  }

  /** A complete member entry is served whole; the listing's cache has no `since` to filter by. */
  lemma CompleteEntryServedWhole(e: Entry, orgStats: Stats, cacheOnly: bool)
    requires !Incomplete(Members, e, orgStats, cacheOnly)
    ensures CachePhaseOf(Members, Some(e), orgStats, None, cacheOnly, None) == Success(Serve(e.data))
  {
  }

  /** Saved without statistics, the member entry's `total_count` is the number of members written. */
  lemma SavedTotalIsMemberCount(files: map<string, StoredFile>, hasCache: bool, cacheDir: string, org: string,
                                includeDetails: bool, remote: Remote, now: int)
    requires hasCache
    requires var path := CacheKey.CachePath(cacheDir, Endpoint(org), ListingParams);
      LoadPhase(Members, files, hasCache, path, true, false, None, None, remote.stats, now).Success?
    requires var path := CacheKey.CachePath(cacheDir, Endpoint(org), ListingParams);
      LoadPhase(Members, files, hasCache, path, true, false, None, None, remote.stats, now).value.Miss?
    requires FetchOutcome(files, hasCache, cacheDir, org, true, false, includeDetails, remote, now).result.Success?
    ensures var path := CacheKey.CachePath(cacheDir, Endpoint(org), ListingParams);
      var out := FetchOutcome(files, hasCache, cacheDir, org, true, false, includeDetails, remote, now);
      && path in out.files && out.files[path].Parsed?
      && out.files[path].entry.metadata.completeness.Some?
      && out.files[path].entry.metadata.completeness.value.totalCount == Some(|out.result.value|)
      && out.files[path].entry.metadata.completeness.value.cachedCount == |out.result.value|
  {
    var members := AfterNetwork(org, remote, includeDetails).value;
    TotalCountRules(members, map[]);
  }

  /**
   * `save` infers the shape of a member list from its first record: when that is a detailed
   * user record (it has `created_at`) and a later member was kept as listed (no `created_at`),
   * the write raises and the whole call fails, leaving the cache as it was.
   */
  lemma DetailedThenBasicMemberRaises(files: map<string, StoredFile>, hasCache: bool, cacheDir: string, org: string,
                                      includeDetails: bool, remote: Remote, now: int)
    requires hasCache
    requires var path := CacheKey.CachePath(cacheDir, Endpoint(org), ListingParams);
      LoadPhase(Members, files, hasCache, path, true, false, None, None, remote.stats, now) == Success(Miss(None))
    requires AfterNetwork(org, remote, includeDetails).Success?
    requires var members := AfterNetwork(org, remote, includeDetails).value;
      members != [] && members[0].createdAt.Some? && exists m :: m in members && m.createdAt.None?
    ensures FetchOutcome(files, hasCache, cacheDir, org, true, false, includeDetails, remote, now)
         == Outcome(Failure(MissingKey("created_at")), files)
  {
    var members := AfterNetwork(org, remote, includeDetails).value;
    SaveRaisesOnMixedShapes(members);
  }

  /** In cache-only mode the call leaves the cache untouched and does not depend on the server. */
  lemma CacheOnlyIsOffline(files: map<string, StoredFile>, hasCache: bool, cacheDir: string, org: string,
                           useCache: bool, includeDetails: bool, remote: Remote, other: Remote, now: int)
    ensures FetchOutcome(files, hasCache, cacheDir, org, useCache, true, includeDetails, remote, now).files == files
    ensures FetchOutcome(files, hasCache, cacheDir, org, useCache, true, includeDetails, remote, now)
         == FetchOutcome(files, hasCache, cacheDir, org, useCache, true, includeDetails, other, now)
  {
  }
}
