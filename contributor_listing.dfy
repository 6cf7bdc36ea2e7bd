/**
 * `GitHubAPI.fetch_contributors` (github_api.py): the contributor listing. With details, after
 * every page the loop enriches every contributor gathered so far with the date of their first
 * commit and their entry of `/stats/contributors`; the model proves that this repeated pass
 * leaves the same list as enriching each contributor once.
 */
module ContributorListing {
  import opened Common
  import opened Records
  import opened GitHubCache
  import opened Paginator
  import opened Dedup
  import opened FetchCommon
  import CacheKey

  function Endpoint(owner: string, name: string): string { "/repos/" + owner + "/" + name + "/contributors" }

  /** `{'since': since.isoformat()} if since else {}`: the listing query, which is also the cache key's. */
  function ListingParams(since: Option<int>): seq<Param>
  {
    if since.Some? then [("since", Render(since.value))] else []
  }

  // ---------------------------------------------------------------- one contributor

  /** No entry before index `i` has a null author or the author `login`. */
  predicate Clear(stats: seq<StatEntry>, login: string, i: int)
    requires 0 <= i <= |stats|
  {
    forall j :: 0 <= j < i ==> stats[j].author.Some? && stats[j].author.value != login
  }

  /**
   * The stats payload the search for `login` settles on: the first entry whose author is
   * `login`, unless an entry with a null author comes first (the `TypeError` it raises inside
   * the `try` ends the search).
   */
  function FindStat(stats: seq<StatEntry>, login: string): (r: Option<int>)
    ensures r.Some? ==> exists i :: 0 <= i < |stats| && stats[i] == StatEntry(Some(login), r.value) && Clear(stats, login, i)
    ensures r.None? ==> forall i :: 0 <= i < |stats| && Clear(stats, login, i) ==> stats[i].author != Some(login)
  {
    if stats == [] then None
    else if stats[0].author.None? then None
    else if stats[0].author.value == login then
      assert Clear(stats, login, 0);
      Some(stats[0].payload)
    else
      var r := FindStat(stats[1..], login);
      assert forall i :: 1 <= i <= |stats| ==> (Clear(stats, login, i) <==> Clear(stats[1..], login, i - 1));
      if r.Some? then
        var i :| 0 <= i < |stats| - 1 && stats[1..][i] == StatEntry(Some(login), r.value) && Clear(stats[1..], login, i);
        assert stats[i + 1] == StatEntry(Some(login), r.value) && Clear(stats, login, i + 1);
        r
      else
        r
  }

  /**
   * One pass of the enrichment body over a contributor that has a login: the first-commit date
   * when that request answers, and the stats entry when the search finds one. Everything else
   * is kept.
   */
  function Enriched(c: Record, firstCommit: string -> Option<int>, stats: Option<seq<StatEntry>>): (r: Record)
    requires c.login.Some?
    ensures r.login == c.login
    ensures r.(firstContributionAt := c.firstContributionAt, contributionStats := c.contributionStats) == c
    ensures r.firstContributionAt == if firstCommit(c.login.value).Some? then firstCommit(c.login.value) else c.firstContributionAt
    ensures stats.Some? && FindStat(stats.value, c.login.value).Some? ==> r.contributionStats == FindStat(stats.value, c.login.value)
    ensures (stats.None? || FindStat(stats.value, c.login.value).None?) ==> r.contributionStats == c.contributionStats
  {
    var login := c.login.value;
    var dated := if firstCommit(login).Some? then c.(firstContributionAt := firstCommit(login)) else c;
    var stat := if stats.Some? then FindStat(stats.value, login) else None;
    if stat.Some? then dated.(contributionStats := stat) else dated
  }

  /** Enriching an enriched contributor again changes nothing. */
  lemma EnrichedIdempotent(c: Record, firstCommit: string -> Option<int>, stats: Option<seq<StatEntry>>)
    requires c.login.Some?
    ensures Enriched(Enriched(c, firstCommit, stats), firstCommit, stats) == Enriched(c, firstCommit, stats)
  {
    var e := Enriched(c, firstCommit, stats);
    var e2 := Enriched(e, firstCommit, stats);
    assert e2.(firstContributionAt := e.firstContributionAt, contributionStats := e.contributionStats) == e;
  }

  /**
   * The loop body for one contributor. `contributor['login']` is read inside the `try` and
   * again inside its `except` handler, so a contributor without a login raises out of the call.
   */
  method EnrichContributor(c: Record, firstCommit: string -> Option<int>, stats: Option<seq<StatEntry>>)
    returns (r: Result<Record, Error>)
    ensures c.login.None? ==> r == Failure(MissingKey("login"))
    ensures c.login.Some? ==> r == Success(Enriched(c, firstCommit, stats))
  {
    if c.login.None? {
      return Failure(MissingKey("login"));
    }
    var login := c.login.value;
    var e := c;
    if firstCommit(login).Some? {
      e := e.(firstContributionAt := firstCommit(login));
    }
    ghost var dated := e;
    assert stats.None? ==> Enriched(c, firstCommit, stats) == dated;
    if stats.Some? {
      var entries := stats.value;
      var i := 0;
      while i < |entries|
        invariant 0 <= i <= |entries|
        invariant FindStat(entries[i..], login) == FindStat(entries, login)
        invariant e == dated
      {
        assert entries[i..][1..] == entries[i + 1..];
        if entries[i].author.None? {
          assert FindStat(entries, login).None?;
          break;
        }
        if entries[i].author.value == login {
          assert FindStat(entries, login) == Some(entries[i].payload);
          e := e.(contributionStats := Some(entries[i].payload));
          break;
        }
        i := i + 1;
      }
    }
    return Success(e);
  }

  // ---------------------------------------------------------------- the listing

  /** Every contributor enriched once, in order. */
  function EnrichedAll(cs: seq<Record>, firstCommit: string -> Option<int>, stats: Option<seq<StatEntry>>): (r: seq<Record>)
    requires AllLogged(cs)
    ensures |r| == |cs|
    ensures forall i :: 0 <= i < |cs| ==> r[i] == Enriched(cs[i], firstCommit, stats)
  {
    if cs == [] then []
    else EnrichedAll(cs[..|cs| - 1], firstCommit, stats) + [Enriched(cs[|cs| - 1], firstCommit, stats)]
  }

  /** The contributors of the yielded pages, enriched once each when details are asked for. */
  function ContributorsOf(pages: seq<seq<Record>>, includeDetails: bool,
                          firstCommit: string -> Option<int>, stats: Option<seq<StatEntry>>): Result<seq<Record>, Error>
  {
    var all := Flatten(pages);
    if !includeDetails then Success(all)
    else if AllLogged(all) then Success(EnrichedAll(all, firstCommit, stats))
    else Failure(MissingKey("login"))
  }

  /** Everything after the cache phase up to the write-back: pagination, enrichment, merge. */
  function AfterNetwork(owner: string, name: string, remote: Remote, since: Option<int>, surviving: Option<Entry>,
                        includeDetails: bool, useCache: bool): Result<seq<Record>, Error>
  {
    var pages := Pages(remote.listing, 0, BaseUrl + Endpoint(owner, name), ListingParams(since));
    match ContributorsOf(pages, includeDetails, remote.firstCommit, remote.contributorStats)
    case Failure(e) => Failure(e)
    case Success(cs) =>
      if useCache && surviving.Some? && since.None? then Merged(cs, surviving.value.data, ByLogin)
      else Success(cs)
  }

  /** Enriched contributors keep their logins. */
  lemma EnrichedAllLogged(done: seq<Record>, firstCommit: string -> Option<int>, stats: Option<seq<StatEntry>>)
    requires AllLogged(done)
    ensures AllLogged(EnrichedAll(done, firstCommit, stats))
  {
    var enriched := EnrichedAll(done, firstCommit, stats);
    forall x | x in enriched
      ensures x.login.Some?
    {
      var k :| 0 <= k < |enriched| && enriched[k] == x;
      assert x == Enriched(done[k], firstCommit, stats);
    }
  }

  /** Re-enriching the enriched list with a new page appended is enriching the whole list once. */
  lemma ReenrichedPage(done: seq<Record>, page: seq<Record>,
                       firstCommit: string -> Option<int>, stats: Option<seq<StatEntry>>)
    requires AllLogged(done)
    ensures AllLogged(EnrichedAll(done, firstCommit, stats) + page) <==> AllLogged(page)
    ensures AllLogged(page) ==>
      (AllLogged(done + page) &&
       EnrichedAll(EnrichedAll(done, firstCommit, stats) + page, firstCommit, stats) == EnrichedAll(done + page, firstCommit, stats))
  {
    var enriched := EnrichedAll(done, firstCommit, stats);
    var before := enriched + page;
    EnrichedAllLogged(done, firstCommit, stats);
    assert forall x :: x in before <==> x in enriched || x in page;
    if AllLogged(page) {
      var all := done + page;
      assert forall x :: x in all ==> x in done || x in page;
      ReenrichedSame(done, page, firstCommit, stats);
    }
  }

  lemma ReenrichedSame(done: seq<Record>, page: seq<Record>,
                       firstCommit: string -> Option<int>, stats: Option<seq<StatEntry>>)
    requires AllLogged(done) && AllLogged(page)
    requires AllLogged(EnrichedAll(done, firstCommit, stats) + page) && AllLogged(done + page)
    ensures EnrichedAll(EnrichedAll(done, firstCommit, stats) + page, firstCommit, stats) == EnrichedAll(done + page, firstCommit, stats)
  {
    var before := EnrichedAll(done, firstCommit, stats) + page;
    var all := done + page;
    var after := EnrichedAll(before, firstCommit, stats);
    var target := EnrichedAll(all, firstCommit, stats);
    forall k | 0 <= k < |after|
      ensures after[k] == target[k]
    {
      if k < |done| {
        EnrichedIdempotent(done[k], firstCommit, stats);
        assert before[k] == Enriched(done[k], firstCommit, stats);
        assert all[k] == done[k];
      } else {
        assert before[k] == page[k - |done|] == all[k];
      }
    }
  }

  /**
   * The inner loop: enrich every contributor gathered so far, in place. The first contributor
   * without a login raises; those before it were already updated, but the call is abandoned.
   */
  method EnrichEach(contributors: seq<Record>, firstCommit: string -> Option<int>, stats: Option<seq<StatEntry>>)
    returns (r: Result<seq<Record>, Error>)
    ensures AllLogged(contributors) ==> r == Success(EnrichedAll(contributors, firstCommit, stats))
    ensures !AllLogged(contributors) ==> r == Failure(MissingKey("login"))
  {
    var updated := contributors;
    var j := 0;
    while j < |updated|
      invariant 0 <= j <= |updated| == |contributors|
      invariant AllLogged(contributors[..j])
      invariant forall k :: 0 <= k < j ==> updated[k] == Enriched(contributors[k], firstCommit, stats)
      invariant updated[j..] == contributors[j..]
    {
      assert updated[j] == updated[j..][0];
      var c := EnrichContributor(updated[j], firstCommit, stats);
      if c.Failure? {
        assert contributors[j] in contributors;
        return Failure(c.error);
      }
      assert forall x :: x in contributors[..j + 1] ==> x in contributors[..j] || x == contributors[j];
      updated := updated[j := c.value];
      j := j + 1;
    }
    assert contributors[..j] == contributors;
    assert updated == EnrichedAll(contributors, firstCommit, stats);
    return Success(updated);
  }

  /** A page just yielded lies inside the flattening of all pages: a contributor in it without a login fails the whole listing. */
  lemma NewPageInPages(pager: Pager, page: seq<Record>, pages: seq<seq<Record>>)
    requires pager.Valid() && pages == Pages(pager.script, 0, pager.startUrl, pager.startParams)
    requires pager.yielded != [] && pager.yielded[|pager.yielded| - 1] == page
    requires !AllLogged(page)
    ensures !AllLogged(Flatten(pages))
  {
    var y := pager.yielded;
    var prior := y[..|y| - 1];
    assert y == prior + [page];
    FlattenSnoc(prior, page);
    FlattenAppend(y, pager.Remaining());
    var x :| x in page && x.login.None?;
    assert x in Flatten(y);
  }

  method NetworkPhase(owner: string, name: string, remote: Remote, since: Option<int>, surviving: Option<Entry>,
                      includeDetails: bool, useCache: bool) returns (r: Result<seq<Record>, Error>)
    ensures r == AfterNetwork(owner, name, remote, since, surviving, includeDetails, useCache)
  {
    var url := BaseUrl + Endpoint(owner, name);
    var params := ListingParams(since);
    ghost var pages := Pages(remote.listing, 0, url, params);
    var pager := new Pager(remote.listing, url, params);
    var contributors: seq<Record> := [];
    while true
      invariant pager.Valid()
      invariant pager.script == remote.listing && pager.startUrl == url && pager.startParams == params
      invariant includeDetails ==>
        (AllLogged(Flatten(pager.yielded))
         && contributors == EnrichedAll(Flatten(pager.yielded), remote.firstCommit, remote.contributorStats))
      invariant !includeDetails ==> contributors == Flatten(pager.yielded)
      decreases |pager.Remaining()|
    {
      ghost var prior := pager.yielded;
      ghost var done := Flatten(prior);
      var page := pager.Next();
      if page.None? {
        break;
      }
      FlattenSnoc(prior, page.value);
      contributors := contributors + page.value;
      if includeDetails {
        ReenrichedPage(done, page.value, remote.firstCommit, remote.contributorStats);
        var enriched := EnrichEach(contributors, remote.firstCommit, remote.contributorStats);
        if enriched.Failure? {
          NewPageInPages(pager, page.value, pages);
          return Failure(enriched.error);
        }
        contributors := enriched.value;
      }
    }
    assert pager.yielded == pages;
    assert ContributorsOf(pages, includeDetails, remote.firstCommit, remote.contributorStats) == Success(contributors);
    if useCache && surviving.Some? && since.None? {
      r := DedupMerge(contributors, surviving.value.data, ByLogin);
    } else {
      r := Success(contributors);
    }
  }

  /** The whole of `fetch_contributors`: its result and the cache directory it leaves. */
  function FetchOutcome(files: map<string, StoredFile>, hasCache: bool, cacheDir: string, owner: string, name: string,
                        useCache: bool, cacheOnly: bool, since: Option<int>, includeDetails: bool,
                        remote: Remote, now: int): Outcome
  {
    var stats := if cacheOnly then map[] else remote.stats;
    var path := CacheKey.CachePath(cacheDir, Endpoint(owner, name), ListingParams(since));
    match LoadPhase(Contributors, files, hasCache, path, useCache, cacheOnly, since, None, stats, now)
    case Failure(e) => Outcome(Failure(e), files)
    case Success(Serve(records)) => Outcome(Success(records), files)
    case Success(Miss(surviving)) =>
      if cacheOnly then Outcome(Success([]), files)
      else
        match AfterNetwork(owner, name, remote, since, surviving, includeDetails, useCache)
        case Failure(e) => Outcome(Failure(e), files)
        case Success(contributors) =>
          var extra := WithDateRange(RangeOf(FirstContributionDates(contributors)));
          match Persist(files, hasCache, useCache, path, contributors, extra, stats, now)
          case Failure(e) => Outcome(Failure(e), files)
          case Success(written) => Outcome(Success(contributors), written)
  }

  // ---------------------------------------------------------------- lemmas

  /**
   * Details add the first-commit date and the stats entry to each contributor and nothing
   * else: one record per listed contributor, in order, with the same login.
   */
  lemma DetailsKeepContributors(pages: seq<seq<Record>>, firstCommit: string -> Option<int>, stats: Option<seq<StatEntry>>)
    requires ContributorsOf(pages, true, firstCommit, stats).Success?
    ensures var r := ContributorsOf(pages, true, firstCommit, stats).value;
      var all := Flatten(pages);
      && |r| == |all|
      && (forall i :: 0 <= i < |r| ==>
           r[i].login == all[i].login && r[i].id == all[i].id && r[i].contributions == all[i].contributions)
      && (forall i :: 0 <= i < |r| && firstCommit(all[i].login.value).Some? ==>
           r[i].firstContributionAt == firstCommit(all[i].login.value))
  {
    var all := Flatten(pages);
    var r := ContributorsOf(pages, true, firstCommit, stats).value;
    forall i | 0 <= i < |r|
      ensures r[i].login == all[i].login && r[i].id == all[i].id && r[i].contributions == all[i].contributions
    {
      assert all[i] in all;
      assert r[i] == Enriched(all[i], firstCommit, stats);
    }
  }

  /** With `since` given, the entry held after the cache phase plays no part. */
  lemma AfterNetworkIgnoresEntry(owner: string, name: string, remote: Remote, t: int, surviving: Option<Entry>,
                                 includeDetails: bool, useCache: bool)
    ensures AfterNetwork(owner, name, remote, Some(t), surviving, includeDetails, useCache)
         == AfterNetwork(owner, name, remote, Some(t), None, includeDetails, useCache)
  {
  }

  /** The merge by login never happens: the network result is the one computed as if no entry were held. */
  lemma FetchNeverMerges(files: map<string, StoredFile>, hasCache: bool, cacheDir: string, owner: string, name: string,
                         useCache: bool, since: Option<int>, includeDetails: bool, remote: Remote, now: int)
    requires var path := CacheKey.CachePath(cacheDir, Endpoint(owner, name), ListingParams(since));
      LoadPhase(Contributors, files, hasCache, path, useCache, false, since, None, remote.stats, now).Success?
    ensures var path := CacheKey.CachePath(cacheDir, Endpoint(owner, name), ListingParams(since));
      var phase := LoadPhase(Contributors, files, hasCache, path, useCache, false, since, None, remote.stats, now).value;
      phase.Miss? ==>
        AfterNetwork(owner, name, remote, since, phase.surviving, includeDetails, useCache)
        == AfterNetwork(owner, name, remote, since, None, includeDetails, useCache)
  {
    var path := CacheKey.CachePath(cacheDir, Endpoint(owner, name), ListingParams(since));
    var phase := LoadPhase(Contributors, files, hasCache, path, useCache, false, since, None, remote.stats, now).value;
    if phase.Miss? && phase.surviving.Some? {
      var loaded := if useCache && hasCache then Lookup(files, path, false, now) else Success(None);
      SurvivingEntryNeedsSince(Contributors, loaded.value, remote.stats, since, false, None);
    }
  }

  /** In cache-only mode the call leaves the cache untouched and does not depend on the server. */
  lemma CacheOnlyIsOffline(files: map<string, StoredFile>, hasCache: bool, cacheDir: string, owner: string, name: string,
                           useCache: bool, since: Option<int>, includeDetails: bool, remote: Remote, other: Remote, now: int)
    ensures FetchOutcome(files, hasCache, cacheDir, owner, name, useCache, true, since, includeDetails, remote, now).files == files
    ensures FetchOutcome(files, hasCache, cacheDir, owner, name, useCache, true, since, includeDetails, remote, now)
         == FetchOutcome(files, hasCache, cacheDir, owner, name, useCache, true, since, includeDetails, other, now)
  {
  }

  /**
   * The range `fetch_contributors` hands to `save`: absent when no date is known, else from
   * the earliest to the latest first contribution, both of which some contributor has.
   */
  lemma FirstContributionRange(contributors: seq<Record>)
    ensures var range := RangeOf(FirstContributionDates(contributors));
      && (range.None? <==> forall c :: c in contributors ==> c.firstContributionAt.None?)
      && (range.Some? ==> forall c :: c in contributors && c.firstContributionAt.Some? ==>
            range.value.start <= c.firstContributionAt.value <= range.value.end)
      && (range.Some? ==> exists c :: c in contributors && c.firstContributionAt == Some(range.value.start))
      && (range.Some? ==> exists c :: c in contributors && c.firstContributionAt == Some(range.value.end))
  {
    var dates := FirstContributionDates(contributors);
    if dates != [] {
      assert dates[0] in dates;
      assert MinOf(dates) in dates && MaxOf(dates) in dates;
    }
  }

  /**
   * A network call that returns normally with a cache writes its result under the listing's
   * path, with the range of its first-contribution dates as `date_range`, whether or not the
   * cache phase held an entry that `since` set aside.
   */
  lemma SavedRangeIsFirstContributions(files: map<string, StoredFile>, hasCache: bool, cacheDir: string,
                                       owner: string, name: string, since: Option<int>, includeDetails: bool,
                                       remote: Remote, now: int)
    requires hasCache
    requires var path := CacheKey.CachePath(cacheDir, Endpoint(owner, name), ListingParams(since));
      var phase := LoadPhase(Contributors, files, hasCache, path, true, false, since, None, remote.stats, now);
      phase.Success? && phase.value.Miss?
    requires FetchOutcome(files, hasCache, cacheDir, owner, name, true, false, since, includeDetails, remote, now).result.Success?
    ensures var path := CacheKey.CachePath(cacheDir, Endpoint(owner, name), ListingParams(since));
      var out := FetchOutcome(files, hasCache, cacheDir, owner, name, true, false, since, includeDetails, remote, now);
      && path in out.files && out.files[path].Parsed?
      && out.files[path].entry.data == out.result.value
      && out.files[path].entry.metadata.dateRange == RangeOf(FirstContributionDates(out.result.value))
  {
  }
}
