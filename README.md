# GitHub repository analysis: cache-backed fetch layer and aggregations

This project models the core of a Python tool that analyses a GitHub repository's activity:
issues, pull requests, contributors and organization members. It then turns that activity into
monthly trend charts and a list of external contributors.

The modelled core has five parts:

- **Cache store** (`GitHubCache`, `CacheKey`; github_cache.py).
  - A cache file path is built from an endpoint and its sorted query parameters.
  - `save` derives metadata from the records' shape and appends to the entry's update history.
  - `load` drops an entry that is more than an hour old, or whose state counts were checked more than fifteen minutes ago. Cache-only mode ignores both limits.
  - The cache directory is a `map` from path to stored file. A file either parses or raises. The current time is a parameter.
- **Fetch layer** (`Paginator`, `FetchCommon`, `Dedup`, `IssueListing`, `ContributorListing`, `MemberListing`, `PullListing`, `GitHubApi`; github_api.py).
  - The paginator walks `next` links over a finite script of server responses.
  - Each `fetch_*` method of the API client:
    - decides whether a loaded entry is complete and covers the request;
    - serves it, filtered by `since` and limited, or fetches the listing page by page;
    - enriches records with detail requests;
    - writes the result back through the cache.
  - The client is a class whose cache object holds the directory state that the methods change.
- **External contributors** (`ExternalContributors`; external_contributors.py).
  - A memoised organization-membership test.
  - Per-user and per-month pull-request counts for contributors outside the filter organizations.
  - Their TSV rendering.
- **Contributor charts** (`ChartContributors`; chart_contributors.py).
  - The monthly buckets of contributions and contributor sets per contributor type, under visibility flags and a date window.
  - The axis and series that would be drawn, and the titles.
  - The clamped date range of the open-PR chart.
- **Open-issue count** (`ChartBase`; chart_base.py): the mask of `count_open_issues`.

Supporting modules:

- `Common`: Python's slicing, `min`/`max`, `str()` and truthiness.
- `Records`: the JSON records as a datatype with optional fields.
- `OrderedDict`: insertion-ordered dicts as association lists.
- `Tallies`: `counts[k] = counts.get(k, 0) + 1` loops.
- `Calendar`: `strptime`/`strftime` for `%Y-%m-%d`, `%Y-%m` and the API's timestamps.

Conventions:

- Timestamps are integer seconds.
- A `KeyError`, the `TypeError` of indexing a string by a key, or a `strptime` failure is a `Failure` result.
- A failed sub-request is `None`.
- The server's answers during one call form a `Remote` value. It holds the listing responses in request order and a function per kind of sub-request.

Behaviour at the edges of the code, each stated by a lemma:

- **Staleness boundary.** github_cache.py:179 and github_cache.py:186 compare the entry's age with a strict `>`. An entry exactly one hour old, or whose state check is exactly fifteen minutes old, is still returned (`GitHubCache.LookupAtThreshold`).
- **Reuse with `since`.** github_api.py:180-181 serve a loaded entry only when `since` is unset or `since >= date_range.start`. Otherwise the call fetches, or returns `[]` in cache-only mode (`FetchCommon.DemotionRule`).
- **The incremental refresh and the merge cannot be reached.** The request from the newest cached `created_at` (github_api.py:200-206) and the merge (github_api.py:229-239) both need a loaded entry with `since` unset. Such an entry is always served first, at github_api.py:180-190. The same holds for contributors and pull requests. `FetchCommon.SurvivingEntryNeedsSince` and the three `FetchNeverMerges` lemmas prove it. The merge loop is still modelled on its own (`Dedup.DedupMerge`), with its properties proved.
- **Duplicate identities.** Only the unreachable merge removes records with a repeated `id`, `login` or `number`. A listing the server answers with repeats is saved and returned with them, and the model claims no uniqueness for fetch results.

## Model

| member | source | states |
|---|---|---|
| CacheKey.InsertPermutes | github_cache.py:36 | inserting a parameter into the sorted list adds exactly that item (a permutation) |
| CacheKey.InsertSorted | github_cache.py:36 | inserting a parameter with a new name into a strictly name-sorted list keeps it strictly sorted |
| CacheKey.SortParamsSorted | github_cache.py:36 | `sorted(params.items())` over distinct names is a permutation of the items, strictly increasing by name in Python's string order |
| CacheKey.SortedUnique | github_cache.py:36 | two strictly sorted parameter lists with the same items are identical, so the sorted form is unique |
| CacheKey.CachePathOrderIndependent | github_cache.py:34-38 | two parameter dicts with the same items give the same cache path, whatever their insertion order |
| CacheKey.CachePathWithoutParams | github_cache.py:33-38 | without parameters the path is `<dir>/<stem>.json`: the stem has the endpoint's length, each '/' of the endpoint becomes '_', every other character is kept, and there is no parameter suffix |
| CacheKey.CachePathInCacheDir | github_cache.py:38 | the path always starts with the cache directory, because the file name never starts with '/' |
| CacheKey.KeysCanCollide | github_cache.py:36 | `{a: "b_c"}` and `{a_b: "c"}` map to the same cache file, so the key is not injective |
| GitHubCache.Cache.constructor | github_cache.py:10-16 | a cache over the given directory and files |
| GitHubCache.Cache.GetCachePath | github_cache.py:22-38 | the cache object's path for an endpoint and parameters lies inside its directory |
| GitHubCache.CountStates | github_cache.py:60-64 | the per-state loop yields, in first-seen order, each state with the number of records carrying it |
| GitHubCache.CountTypes | github_cache.py:87-90 | the per-type loop counts each record once, under its `type` or 'Unknown' |
| GitHubCache.Summarize | github_cache.py:50-102 | the shape-dependent `date_range` and `state_counts` of `save`, or the `KeyError` a later record raises |
| GitHubCache.StatesOfLength | github_cache.py:61-63 | the states collected are exactly one per record that has a `state` |
| GitHubCache.CreatedTimes | github_cache.py:57 | the `created_at` of every record, position by position |
| GitHubCache.TouchedTimes | github_cache.py:58 | `updated_at`, or `created_at` when absent, of every record, position by position |
| GitHubCache.FirstContributionDates | github_cache.py:69-74 | exactly the `first_contribution_at` values present among the records |
| GitHubCache.SaveCountsRecords | github_cache.py:105-143 | a written entry holds the data as given, `cached_count == len(data)`, and `last_updated` is the write time |
| GitHubCache.TotalCountRules | github_cache.py:109-116 | `total_count` is open+closed issues when `open_issues_count` is present, else `public_members`, `len(data)` without statistics, and unset for statistics with neither key |
| GitHubCache.DatedSummary | github_cache.py:55-64 | for issue-shaped data the range starts at the least `created_at` and ends at the greatest `updated_at`-or-`created_at`, each of which some record has; the state counts are per-state occurrences and sum to the number of records with a state, at most `len(data)` |
| GitHubCache.MemberSummary | github_cache.py:85-90 | for member lists there is no date range, and the type counts sum to `len(data)` |
| GitHubCache.LastItemNumberIsMax | github_cache.py:119-121 | `last_item_number` is the greatest `number` among the records, and one of them carries it |
| GitHubCache.SaveRaisesOnMixedShapes | github_cache.py:55-58 | after an issue-shaped first record, a record without `created_at` makes `save` raise `KeyError('created_at')` |
| GitHubCache.SaveAppendsHistory | github_cache.py:133-155 | the new history is the readable prior history plus exactly one record with the write time, `len(data)` and the state counts; with no prior file it is that one record |
| GitHubCache.SavedEntryIsFresh | github_cache.py:123-188 | an entry just written reads back unchanged at the same instant |
| GitHubCache.Cache.Save | github_cache.py:40-158 | it raises exactly when the derived entry raises, leaving the files untouched; otherwise exactly the entry at `path` is replaced |
| GitHubCache.LookupMissingOrUnreadable | github_cache.py:170-174 | an absent file loads as `None`, and an unparseable file raises instead of being treated as absent |
| GitHubCache.LookupCacheOnlyIgnoresAge | github_cache.py:176 | in cache-only mode a readable entry is returned whatever its age |
| GitHubCache.LookupStaleness | github_cache.py:176-190 | otherwise the entry is dropped exactly when it is more than 3600 s old or its state check is more than 900 s old, and is returned unchanged when kept |
| GitHubCache.LookupAtThreshold | github_cache.py:179-186 | an entry exactly at both limits is still returned |
| GitHubCache.Cache.Load | github_cache.py:160-190 | `load` returns the lookup of the current files at `now` |
| Paginator.PagesAreSuccessfulBodies | github_api.py:110-120 | every yielded page is non-empty and is the body of a 200 response, in order |
| Paginator.RequestsFollowLinks | github_api.py:110-124 | the first request carries the initial parameters and each later one goes, with no parameters, to the previous response's `next` link; an empty URL sends nothing |
| Paginator.PagesStopReason | github_api.py:110-123 | the walk ends after a non-200 or empty answer, after a page without a `next` link, or when the responses run out |
| Paginator.Step | github_api.py:110-124 | one turn of the loop: a stopping answer yields nothing more, otherwise its body is yielded and the walk continues at its `next` link |
| Paginator.Pager.constructor | github_api.py:107-108 | a fresh generator whose remaining pages are the whole walk |
| Paginator.Pager.Next | github_api.py:110-124 | resuming the generator yields exactly the next page of the walk, or nothing once it has ended |
| FetchCommon.LimitSlice | github_api.py:189-190 | `s[:limit] if limit else s` is a prefix of `s`, no longer than a positive limit, and all of `s` for a falsy limit |
| FetchCommon.CreatedSince | github_api.py:185-188 | the cached records created at or after `since`, in order; it raises `KeyError('created_at')` exactly when a record lacks it |
| FetchCommon.FirstContributedSince | github_api.py:294-298 | the cached contributors with a `first_contribution_at` at or after `since`, in order; the others are dropped |
| FetchCommon.ServedNoLonger | github_api.py:183-190 | a served cache result is a subsequence of the cache, never longer |
| FetchCommon.DemotionRule | github_api.py:172-176 | outside cache-only mode an entry is demoted exactly when the listing's total is above zero and `cached_count` is below it; a zero total and cache-only mode never demote |
| FetchCommon.SurvivingEntryServed | github_api.py:178-190 | a complete entry requested without `since` is served: whole, or limited for issues |
| FetchCommon.SurvivingEntryNeedsSince | github_api.py:178-206 | a miss that still holds an entry always has `since` set and is not in cache-only mode, so the watermark branch with `since` unset cannot run |
| FetchCommon.CacheOnlyMissHasNoEntry | github_api.py:191-196 | in cache-only mode an uncovered entry yields `[]` and no miss carries an entry |
| Dedup.DedupMerge | github_api.py:231-239 | the `seen`-set loop computes the merge of `fresh + cached`, or the `KeyError` of a record without the identity field |
| Dedup.FirstOccurrencesUnique | github_api.py:233-238 | the merged list holds no two records with the same identity |
| Dedup.FirstOccurrencesKeySet | github_api.py:233-238 | the merged list holds every identity of the input |
| Dedup.FirstOccurrencesLength | github_api.py:233-238 | its length is the number of distinct identities |
| Dedup.FirstOccurrencesOrdered | github_api.py:233-238 | it is a subsequence of the input, so first-occurrence order is kept |
| Dedup.FirstOccurrenceWins | github_api.py:236-238 | a record whose identity did not occur earlier is kept |
| Dedup.KeptIsFirst | github_api.py:236-238 | every kept record is the first in the input with its identity |
| Dedup.FetchedWins | github_api.py:231-239 | every fresh record survives, and a cached record survives only when no fresh record shares its identity |
| Dedup.MergeLength | github_api.py:231-239 | the merged length is the number of identities in either list, i.e. the fresh and cached counts minus the shared identities |
| IssueListing.NonPullRequests | github_api.py:211 | a page's items without a truthy `pull_request`, in order |
| IssueListing.DetailIssues | github_api.py:213-220 | the detail loop of a page, raising on an issue without `number` |
| IssueListing.DetailsComeFromIssues | github_api.py:216-219 | each detailed record is the detail of some listed issue, every successful detail is kept, and failed ones are dropped |
| IssueListing.GatherHasNoPullRequests | github_api.py:209-226 | without details, the accumulated issues contain no pull request |
| IssueListing.GatherStopsAtLimit | github_api.py:224-226 | once the count reaches the limit no later page is looked at |
| IssueListing.GatherExtends | github_api.py:222 | the accumulated list only grows by `extend` |
| IssueListing.NetworkPhase | github_api.py:198-239 | the request, pagination and (unreachable) merge of `fetch_issues`, as the pager yields pages |
| IssueListing.AfterNetworkIgnoresEntry | github_api.py:199-229 | with `since` given, a held entry plays no part in the request or the result |
| IssueListing.FetchNeverMerges | github_api.py:178-239 | in every call that reaches the network the result is the one computed with no entry held |
| IssueListing.FetchRespectsLimit | github_api.py:189-244 | with a positive limit the result, cached or fetched, has at most `limit` records |
| IssueListing.CacheOnlyIsOffline | github_api.py:154-196 | in cache-only mode the cache is unchanged and the result does not depend on the server |
| IssueListing.NetworkResultHasNoPullRequests | github_api.py:178-244 | on the network path without details no pull request is returned, whether or not `since` set a loaded entry aside |
| ContributorListing.FindStat | github_api.py:333-341 | the first stats entry authored by the login, unless an entry with a null author comes first |
| ContributorListing.Enriched | github_api.py:316-346 | enrichment sets only the first-contribution date (when known) and the stats entry (when found), keeping the login and every other field |
| ContributorListing.EnrichedIdempotent | github_api.py:312-346 | enriching an enriched contributor again changes nothing |
| ContributorListing.EnrichContributor | github_api.py:314-346 | one iteration: the enriched record, or `KeyError('login')` raised from the handler |
| ContributorListing.EnrichEach | github_api.py:312-346 | the in-place loop enriches every gathered contributor, or raises at one without a login |
| ContributorListing.EnrichedAll | github_api.py:312-346 | one enriched record per contributor, in order |
| ContributorListing.ReenrichedPage | github_api.py:309-346 | re-enriching the enriched list with a new page appended is enriching everything once |
| ContributorListing.NetworkPhase | github_api.py:308-359 | the pagination and enrichment of `fetch_contributors`, as the pager yields pages |
| ContributorListing.DetailsKeepContributors | github_api.py:308-346 | details keep one record per listed contributor, in order, with its login, id and count, and set its first-contribution date |
| ContributorListing.AfterNetworkIgnoresEntry | github_api.py:348-349 | with `since` given a held entry plays no part |
| ContributorListing.FetchNeverMerges | github_api.py:289-359 | the merge by login never changes a network result |
| ContributorListing.CacheOnlyIsOffline | github_api.py:273-306 | in cache-only mode the cache is unchanged and the server is not consulted |
| ContributorListing.FirstContributionRange | github_api.py:361-370 | the saved range is absent exactly when no contributor has a first-contribution date; otherwise it runs from the earliest to the latest of them, both of which some contributor has |
| ContributorListing.SavedRangeIsFirstContributions | github_api.py:287-378 | a successful network call writes its result with that range as `date_range`, whether or not `since` set a loaded entry aside |
| MemberListing.Detailed | github_api.py:445-470 | a member becomes its user record with the membership attached when available, or stays as listed when the user request fails |
| MemberListing.DetailedAll | github_api.py:443-470 | one detailed record per member, in order |
| MemberListing.DetailPage | github_api.py:443-470 | the detail loop of a page, raising on a member without `login` |
| MemberListing.GatherKeepsMembers | github_api.py:441-470 | details never add or drop a member, and without details the pages are returned as listed |
| MemberListing.DetailedPageMembers | github_api.py:445-470 | each output record is the member itself or its user record |
| MemberListing.NetworkPhase | github_api.py:440-470 | the pagination of `fetch_org_members`, as the pager yields pages |
| MemberListing.CompleteEntryServedWhole | github_api.py:430-435 | a complete member entry is served whole |
| MemberListing.SavedTotalIsMemberCount | github_api.py:472-492 | saved without statistics, the entry's `total_count` and `cached_count` equal the number of members |
| MemberListing.DetailedThenBasicMemberRaises | github_api.py:485-492 | a detailed first member followed by a member kept as listed makes `save` raise, and the call fails with the cache unchanged |
| MemberListing.CacheOnlyIsOffline | github_api.py:409-438 | in cache-only mode the cache is unchanged and the server is not consulted |
| PullListing.Detailed | github_api.py:587-610 | a pull request becomes its detail record with its reviews attached, or stays as listed when the detail request fails |
| PullListing.DetailedAll | github_api.py:585-610 | one detailed record per pull request, in order |
| PullListing.DetailPage | github_api.py:585-610 | the detail loop of a page, raising on a pull request without `number` |
| PullListing.GatherKeepsPulls | github_api.py:583-610 | details never add or drop a pull request, and without details the pages are returned as listed |
| PullListing.DetailedPagePulls | github_api.py:587-610 | each output record is the pull request itself or its detail record with `reviews` set |
| PullListing.NetworkPhase | github_api.py:571-623 | the request, pagination and (unreachable) merge of `fetch_pull_requests` |
| PullListing.PullRangeBounds | github_api.py:625-638 | the saved range is absent exactly for no pull requests; otherwise it runs from the earliest creation to the latest update (creation when never updated), both of which some pull request has; the call raises exactly when one lacks `created_at` or `state` |
| PullListing.MissingStateFailsCall | github_api.py:625-649 | with a cache, a pull request without `state` fails the call before anything is written |
| PullListing.FetchNeverMerges | github_api.py:553-623 | the merge by number never changes a network result |
| PullListing.CacheOnlyIsOffline | github_api.py:525-569 | in cache-only mode the cache is unchanged and the server is not consulted |
| GitHubApi.Client.constructor | github_api.py:15-30 | the client's flags, with a cache object exactly when caching is on |
| GitHubApi.Client.CachePhase | github_api.py:162-196 | loading through the cache object, then the reuse decision |
| GitHubApi.Client.WriteBack | github_api.py:241-242 | `save` through the cache object when the call uses it: raising leaves the files unchanged |
| GitHubApi.Client.FetchIssues | github_api.py:126-244 | the result and the new cache files are those of the issue listing's outcome, with the per-call overrides resolved |
| GitHubApi.Client.FetchContributors | github_api.py:246-380 | likewise for `fetch_contributors` |
| GitHubApi.Client.FetchOrgMembers | github_api.py:382-494 | likewise for `fetch_org_members` |
| GitHubApi.Client.FetchPullRequests | github_api.py:496-651 | likewise for `fetch_pull_requests` |
| ExternalContributors.Logins | external_contributors.py:45 | the comprehension succeeds exactly when every entry is a member record with a `login`, and then lists those logins in order; otherwise it raises `KeyError('login')` or the `TypeError` of indexing an error object's key |
| ExternalContributors.StopAt | external_contributors.py:51-53 | where the loop ends: every earlier organization's roster reads and does not list the user, and the one it ends at raises or lists them |
| ExternalContributors.JudgedMeaning | external_contributors.py:49-54 | `True` exactly when every roster reads and none lists the user; `False` exactly when one lists them and all before it read; raises exactly when a roster raises before any lists them, with that roster's error |
| ExternalContributors.OrgDirectory.constructor | external_contributors.py:78 | an empty memo |
| ExternalContributors.OrgDirectory.GetOrgMembers | external_contributors.py:27-46 | returns the organization's logins or the error their comprehension raises; a memoised organization is answered without a fetch, a new one is stored once when it reads, and nothing is stored when it raises |
| ExternalContributors.OrgDirectory.IsExternalContributor | external_contributors.py:49-54 | returns what `Judged` says, and memoises exactly the rosters read before the loop ends, plus the one it ends at when that one reads |
| ExternalContributors.StoppedAt | external_contributors.py:52-53 | ending at an organization whose roster raises gives its error and memoises the ones before; ending at one listing the user gives `False` and memoises it too |
| ExternalContributors.ConsultedAll | external_contributors.py:51-54 | running through every organization without stopping gives `True` and memoises them all |
| ExternalContributors.NoFilterAllExternal | external_contributors.py:51-54 | with no filter organizations everyone is external and no roster is fetched |
| ExternalContributors.GetExternalContributors | external_contributors.py:75-96 | the registration and counting loops compute the aggregate, or the `KeyError`, roster error or parse error they raise |
| ExternalContributors.CountPulls | external_contributors.py:87-95 | the loop over the pull requests computes `Counted` from the registered table: each pull request by a registered author adds one to its total and to its month, and a missing `user`, `login` or `created_at` or an unparseable date raises |
| ExternalContributors.RegisteredFails | external_contributors.py:80-85 | registration fails exactly when some contributor has no `login` or a roster raises while judging them; the error is `KeyError('login')` or that roster's error |
| ExternalContributors.RegisteredEntries | external_contributors.py:80-85 | exactly the external logins are registered, each at zero PRs and no months |
| ExternalContributors.CountPullActivity | external_contributors.py:87-95 | a pull request adds one PR and one in its month to its author's entry and leaves every other entry alone |
| ExternalContributors.CountedKeys | external_contributors.py:87-95 | counting never adds, drops or reorders a contributor |
| ExternalContributors.CountedActivity | external_contributors.py:87-95 | a registered contributor ends with one PR per pull request they authored, tallied by creation month |
| ExternalContributors.ExternalActivity | external_contributors.py:75-96 | the result has an entry exactly for each external contributor; its `prs` is the number of its pull requests and equals the sum of its month counts; each month count is the number opened that month |
| ExternalContributors.AppendMonthRows | external_contributors.py:114-115 | the inner loop appends one row per month of a contributor |
| ExternalContributors.ConvertToTsv | external_contributors.py:110-116 | the header, then the contributors' rows in insertion order |
| ExternalContributors.RowShape | external_contributors.py:115 | a row has three tabs and one newline, at its end, and starts with the username |
| ExternalContributors.TsvShape | external_contributors.py:110-116 | the TSV has one line for the header plus one per (contributor, month) pair, each with four tab-separated fields; contributors without months add none |
| Calendar.OrdinalIsChronological | chart_contributors.py:259-266 | the date key orders valid dates chronologically and identifies them |
| Calendar.ParseDate | chart_contributors.py:253 | `strptime(s, "%Y-%m-%d")`: a four-digit year, a one- or two-digit month, a one- or two-digit or space-padded day, and only dates `datetime` accepts |
| Calendar.ParseFormatDate | chart_contributors.py:253 | every valid date reads back from its zero-padded form |
| Calendar.FormatParseDate | chart_contributors.py:253 | an accepted date string is its own zero-padded form exactly when it is ten characters long and its day does not start with a space |
| Calendar.LenientDates | chart_contributors.py:253 | `"2023-1-5"` and `"2023-01- 5"` both parse as 5 January 2023 |
| Calendar.RefusedDates | external_contributors.py:90 | 29 February of a common year and the leap second `23:59:60` are refused |
| Calendar.ParseTimestamp | external_contributors.py:90 | `strptime(s, "%Y-%m-%dT%H:%M:%SZ")`: the date fields as for dates, hour, minute and second of one or two digits up to 23, 59 and 59, the literals `T` and `Z` in either case, and only dates `datetime` accepts |
| Calendar.LowerCaseLiterals | external_contributors.py:90 | a timestamp written with lower-case `t` and `z` parses |
| Calendar.OneDigitMonthBucket | external_contributors.py:90-91 | `"2023-1-05T10:00:00Z"` is bucketed under `"2023-01"` |
| Calendar.MonthKeyIsPrefix | external_contributors.py:90-91 | a timestamp's month bucket is its own first seven characters exactly when its month is written with two digits |
| Calendar.MonthKeyStartsMonth | external_contributors.py:90-91 | every month bucket reads back as the first day of that timestamp's month |
| Calendar.NumberOfPad | external_contributors.py:91 | reading back a zero-padded field gives the number when it fits |
| Calendar.PadOfNumber | chart_contributors.py:56 | padding a digit run's value to its width gives the run back |
| ChartContributors.KindOf | chart_contributors.py:48-60 | the bucket a `type` string selects, none for any other string |
| ChartContributors.AddMonthLookup | chart_contributors.py:55-64 | one month item adds its count and the user to exactly one bucket, when inside the window |
| ChartContributors.AddMonthsLookup | chart_contributors.py:55-64 | the inner loop adds the contributor's share to every bucket |
| ChartContributors.AddContributorLookup | chart_contributors.py:47-64 | one contributor adds what the inclusion rule says to every bucket |
| ChartContributors.AggregatedLookup | chart_contributors.py:47-64 | the aggregation adds, bucket by bucket, the expected sums and contributor sets |
| ChartContributors.AggregationMeaning | chart_contributors.py:41-64 | each (type, month) bucket holds the sum of the included month counts and exactly the usernames included there, and no other bucket exists |
| ChartContributors.ContributorsAtMeaning | chart_contributors.py:60-64 | a user is counted in a bucket exactly when their record is of that type, not hidden, and has that month inside the window |
| ChartContributors.UnknownAlwaysAggregated | chart_contributors.py:51-53 | `show_unknown` plays no part in the aggregation |
| ChartContributors.AddMonthsLoop | chart_contributors.py:55-64 | the inner loop, raising on an unparseable month |
| ChartContributors.TallyInto | chart_contributors.py:60-64 | creating the bucket when missing, then adding the count and the user |
| ChartContributors.Aggregate | chart_contributors.py:41-64 | the outer loop computes the aggregation, or the error it raises |
| ChartContributors.AxisOf | chart_contributors.py:95-104 | the axis holds exactly the months of the shown types that have data |
| ChartContributors.SeriesOf | chart_contributors.py:122-137 | one series per shown type with data, holding that type's buckets |
| ChartContributors.CollectMonths | chart_contributors.py:95-104 | the axis loop collects that set |
| ChartContributors.CollectSeries | chart_contributors.py:122-165 | the drawing loop produces those series in the order internal, external, unknown |
| ChartContributors.TitlePartsMeaning | chart_contributors.py:173-179 | the title names exactly the shown types, once each |
| ChartContributors.TrendTitleCases | chart_contributors.py:181-184 | with no shown type the bare title, with one type that type's name alone |
| ChartContributors.PlotContributorTrends | chart_contributors.py:36-191 | the early exits, or the title, the series, `all_months` and the `date_range` from the first day of `min(all_months)` to that of `max(all_months)`, as `TrendOutcome` defines them |
| ChartContributors.TrendAxisNeverEmpty | chart_contributors.py:106-108 | the "no data after filtering" exit can never be taken |
| ChartContributors.TrendNoDataInRange | chart_contributors.py:67-73 | the "no data in selected date range" exit is taken exactly when no shown type counted anybody |
| ChartContributors.PlottedFrom | chart_contributors.py:67-186 | a drawn chart carries the title, series and `all_months` of the aggregated buckets, and the range from the first day of the least key to that of the greatest |
| ChartContributors.SeriesHoldExpected | chart_contributors.py:122-141 | each drawn series holds exactly the expected bucket of its type, month by month |
| ChartContributors.CountedIsDrawn | chart_contributors.py:95-141 | a shown type that counted somebody has a series and that month is in `all_months`; when every key is written `YYYY-MM` the month also lies on the drawn `date_range`, so the left merge keeps its bucket |
| ChartContributors.AxisInWindow | chart_contributors.py:56-104 | every axis month starts inside the date window |
| ChartContributors.TrendPlotted | chart_contributors.py:36-186 | what is drawn: the title; one series per shown type with data holding exactly the counted buckets; `all_months`, holding every counted month, all inside the window; and the range between the first days of its least and greatest keys, which holds every key when all are written `YYYY-MM` |
| ChartContributors.Least | chart_contributors.py:113 | `min(all_months)`: a member of the set that no member precedes in Python's string order |
| ChartContributors.Greatest | chart_contributors.py:114 | `max(all_months)`: a member of the set that precedes no member in Python's string order |
| ChartContributors.MonthBounds | chart_contributors.py:111-114 | the one-pass search returns exactly the least and the greatest key of the set |
| ChartContributors.TwoDigitMonthOrder | chart_contributors.py:111-116 | for `YYYY-MM` keys the earlier month is the smaller string, so the string order agrees with the calendar |
| ChartContributors.TwoDigitMonthsOnRange | chart_contributors.py:111-141 | when every key is written `YYYY-MM`, every key's first day lies between those of the least and the greatest key |
| ChartContributors.OneDigitMonthEmptiesRange | chart_contributors.py:111-116 | for `{"2023-9", "2023-10"}` the least key is `"2023-10"` and the greatest `"2023-9"`, so the range is empty and no bucket is drawn |
| ChartContributors.TrendRangeParses | chart_contributors.py:112-115 | the `strptime` of the least and greatest key never raises: a drawn chart fails only with the aggregation's error |
| ChartContributors.ParseAll | chart_contributors.py:253 | every collected date parsed, or the error of a date that does not parse (the source's set order leaves which one open) |
| ChartContributors.Earliest | chart_contributors.py:259 | the earliest collected date, one of them |
| ChartContributors.Latest | chart_contributors.py:260 | the latest collected date, one of them |
| ChartContributors.PrTitleCases | chart_contributors.py:317-330 | the generic title for several shown types, "from X Contributors" for one, "Open Pull Requests" for none |
| ChartContributors.CollectDates | chart_contributors.py:244-250 | the loop collects the dates of every type not hidden |
| ChartContributors.DrawLines | chart_contributors.py:276-314 | the drawing loop draws one line per shown type with filtered counts |
| ChartContributors.PlotOpenPrsTrend | chart_contributors.py:223-338 | the early exits, or the clamped range, lines and title |
| ChartContributors.InWindowCounts | chart_contributors.py:284-288 | the counts kept lie inside the window |
| ChartContributors.WindowLines | chart_contributors.py:276-291 | each line the chart means to draw is of a shown type |
| ChartContributors.AllDatesCover | chart_contributors.py:244-250 | every date of a visible type is collected |
| ChartContributors.ClampedFilterIsWindow | chart_contributors.py:263-288 | filtering against the clamped `max_date` is filtering against `end_date` |
| ChartContributors.ShownDatesBounded | chart_contributors.py:253-260 | a shown type's dates lie between the earliest and latest collected date |
| ChartContributors.LinesAreWindowLines | chart_contributors.py:276-291 | the drawn lines are the shown types' counts inside the window |
| ChartContributors.WindowCountOnAxis | chart_contributors.py:259-288 | a kept count lies on the clamped axis |
| ChartContributors.WindowLinesFrom | chart_contributors.py:276-291 | each line holds the in-window counts of a shown type present in the data |
| ChartContributors.OpenPrRangeNeverEmpty | chart_contributors.py:255-257 | the "no data in selected date range" exit can never be taken |
| ChartContributors.OpenPrPlotted | chart_contributors.py:259-330 | the axis starts no earlier than `start_date` and ends no later than `end_date`, each line is a shown type's in-window counts, and every plotted date lies on the axis |
| ChartBase.CountSingle | chart_base.py:19-30 | one row counts exactly when the mask holds for it |
| ChartBase.CountAppend | chart_base.py:30 | the count adds up over a split of the table |
| ChartBase.MaskCases | chart_base.py:19-21 | an issue created later is never counted; an open one is counted iff created by the date; a closed one iff created by then and closed strictly after; one closed on the date is not counted; other states never are |
| ChartBase.CountBound | chart_base.py:19-30 | the count never exceeds the number of rows, and equals it exactly when every row matches |
| ChartBase.CountZero | chart_base.py:19-30 | the count is zero exactly when no row matches |
| ChartBase.LabelNarrows | chart_base.py:24-28 | a label filter never increases the count |
| ChartBase.NoLabelsUsesFlag | chart_base.py:25-26 | `'no_labels'` counts the open rows flagged as having no labels, whatever their label lists say |
| Tallies.TallyCounts | github_cache.py:60-64 | a tally's count for a key is its number of occurrences |
| Tallies.TallySum | github_cache.py:60-64 | the counts of a tally add up to the number of keys tallied |
| Tallies.TallyUnique | github_cache.py:60-64 | a tally holds each key once |
| OrderedDict.PutKeys | external_contributors.py:85-95 | `d[k] = v` keeps a present key's position and appends a new key |
| OrderedDict.SumValuesPut | external_contributors.py:93-95 | overwriting a key changes the sum of the values by the difference |

## Left out

- HTTP transport: headers, status messages and `requests.get` are left out. The server's answers are a finite script. Detail sub-requests are functions of the item they are about: `_fetch_item_details`, comments, events, reviews, commits, contributor statistics, user records and memberships. A failure there is `None`.
- `_get_repository_stats`: it becomes the `stats` field of the server's answers.
- The paginator's lack of a guard against cyclic `next` links is not captured. The finite script ends every walk.
- The file system and JSON: the cache directory is a map, and a file either parses or does not. The directory creation in `GitHubCache.__init__` is left out.
- The clock: "now" is a parameter, and instants are integer seconds. `isoformat()` and `fromisoformat()` are not modelled. `since` is rendered as its decimal number of seconds in request parameters and cache keys.
- `save` compares ISO strings with `min`/`max`. The model compares integer instants, which agrees for timestamps in one format and time zone.
- The `save` branches for a list of plain strings and for unrecognised shapes both give the same `total_count` summary. Only records are modelled, so the string-list test is not distinguished.
- `save`'s `metadata` argument is modelled only for the `date_range` key that callers pass.
- `GitHubApi.Client.FetchIssues`: only the caller-visible result and the cache files are stated. The logging and the `repo_stats` request made outside cache-only mode are not.
- `GitHubApi.Client.FetchContributors`, `GitHubApi.Client.FetchOrgMembers` and `GitHubApi.Client.FetchPullRequests` leave out the same things.
- In cache-only mode the statistics request is not modelled as skipped. Instead, `CacheOnlyIsOffline` proves the outcome does not depend on anything the server answers.
- `get_contributors` and `get_pull_requests` in external_contributors.py are network reads whose lists are inputs. The `__main__` argument handling and the printing are left out.
- Plotting: matplotlib, colours, line styles and legends are left out, and pandas `date_range`, `merge` and `fillna` are modelled only as far as which buckets are drawn. The trend chart's outcome carries the range's first and last day, and `OnRange` says which buckets the left merge keeps. Months in the range without a bucket are drawn as 0 in the source; the model does not materialise those zero rows. `pd.to_datetime(month + "-01")` is taken to read a key as `strptime` does, so two keys of the same month (`"2023-1"` and `"2023-01"`) are two rows on one date, which the model does not list.
- `ChartContributors.PlotContributorTrends`, `ChartContributors.TrendPlotted`, `ChartContributors.CountedIsDrawn`: the range runs between the lexicographic `min` and `max` of the keys. Every bucket is drawn only when all keys are written `YYYY-MM`. With a one-digit month the range can be empty or too short and drop buckets, as `OneDigitMonthEmptiesRange` shows.
- `ChartContributors.PlotOpenPrsTrend` models `open_prs_data` as an insertion-ordered list of type entries. Keys other than the three types are collected for the axis, as in the source, but never drawn.
- Logging, `print` and the `save_chart` I/O are left out.
- `ContributorListing.NetworkPhase`, `ContributorListing.ReenrichedPage`: after each page the source asks both detail requests again for every contributor gathered so far. A later pass may get a different answer, for example statistics missing on one pass and present on the next. Each answer is modelled as a fixed function of the contributor, so the repeated passes equal one pass. The model does not capture that an earlier contributor keeps the last successful answer of several passes. It also does not count the repeated requests.
- `ChartBase`: `created_at` and `closed_at` are integer instants. A row whose `created_at` is `NaT` cannot be expressed. In the source every comparison with `NaT` is false, so such a row never counts.
- `Calendar.ParseDate`, `Calendar.ParseTimestamp`: only ASCII digits are read. `strptime`'s `\d` also accepts other Unicode decimal digits.
- `Calendar.MonthKey`, `Calendar.FormatDate`: `%Y` is written with four digits. For years before 1000 the C library's `strftime` may write fewer, so `MonthKeyIsPrefix` is stated for four-digit output.
