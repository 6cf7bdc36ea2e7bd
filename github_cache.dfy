/**
 * `GitHubCache` (github_cache.py): a directory of JSON cache files, one per request key.
 * The directory is an in-memory map from path to file content; "now" is a parameter.
 */
module GitHubCache {
  import opened Common
  import opened Records
  import opened OrderedDict
  import opened Tallies
  import CacheKey

  /** `timedelta(hours=1)` and `timedelta(minutes=15)`, in seconds. */
  const MaxAge: int := 3600
  const MaxStateAge: int := 900

  datatype DateRange = DateRange(start: int, end: int)

  datatype Completeness = Completeness(cachedCount: nat, totalCount: Option<int>, lastItemNumber: Option<int>)

  datatype StateCoverage = StateCoverage(counts: Dict<string, int>, lastStateCheck: int)

  datatype Metadata = Metadata(
    dateRange: Option<DateRange>,
    completeness: Option<Completeness>,
    stateCoverage: Option<StateCoverage>)

  datatype UpdateRecord = UpdateRecord(timestamp: int, itemsCount: nat, stateCounts: Dict<string, int>)

  /** The content of one cache file: `{data, metadata, last_updated, update_history}`. */
  datatype Entry = Entry(data: seq<Record>, metadata: Metadata, lastUpdated: int, history: Option<seq<UpdateRecord>>)

  /** A cache file either parses as an entry or does not parse at all. */
  datatype StoredFile = Parsed(entry: Entry) | Unparseable

  /** The `metadata` argument of `save`: only a `date_range` key changes what is read back. */
  datatype ExtraMetadata = NoExtra | WithDateRange(range: Option<DateRange>)

  /** What `save` infers from the first record's keys. */
  datatype Shape = Dated | ContributorList | MemberList | Plain

  function ShapeOf(sample: Record): Shape
  {
    if sample.createdAt.Some? then Dated
    else if sample.contributions.Some? then ContributorList
    else if sample.kind.Some? then MemberList
    else Plain
  }

  /** The `state` of every record that has one, in order. */
  function StatesOf(data: seq<Record>): (ks: seq<string>)
    ensures |ks| <= |data|
  {
    if data == [] then []
    else
      var last := data[|data| - 1];
      StatesOf(data[..|data| - 1]) + (if last.state.Some? then [last.state.value] else [])
  }

  /** `item.get('type', 'Unknown')` of every record, in order. */
  function TypesOf(data: seq<Record>): (ks: seq<string>)
    ensures |ks| == |data|
  {
    if data == [] then []
    else
      var last := data[|data| - 1];
      TypesOf(data[..|data| - 1]) + [if last.kind.Some? then last.kind.value else "Unknown"]
  }

  function CountWithState(data: seq<Record>): nat
  {
    if data == [] then 0
    else CountWithState(data[..|data| - 1]) + (if data[|data| - 1].state.Some? then 1 else 0)
  }

  lemma {:induction false} StatesOfLength(data: seq<Record>)
    ensures |StatesOf(data)| == CountWithState(data)
  {
    if data != [] {
      StatesOfLength(data[..|data| - 1]);
    }
  }

  lemma StatesOfSnoc(data: seq<Record>, r: Record)
    ensures StatesOf(data + [r]) == StatesOf(data) + (if r.state.Some? then [r.state.value] else [])
  {
    assert (data + [r])[..|data|] == data;
  }

  lemma TypesOfSnoc(data: seq<Record>, r: Record)
    ensures TypesOf(data + [r]) == TypesOf(data) + [if r.kind.Some? then r.kind.value else "Unknown"]
  {
    assert (data + [r])[..|data|] == data;
  }

  /** The per-state loop of `save`: counts every record that has a `state` field. */
  method CountStates(data: seq<Record>) returns (counts: Dict<string, int>)
    ensures counts == Tally(StatesOf(data))
  {
    counts := [];
    var i := 0;
    while i < |data|
      invariant 0 <= i <= |data|
      invariant counts == Tally(StatesOf(data[..i]))
    {
      var item := data[i];
      assert data[..i + 1] == data[..i] + [item];
      StatesOfSnoc(data[..i], item);
      if item.state.Some? {
        var state := item.state.value;
        TallySnoc(StatesOf(data[..i]), state);
        counts := Put(counts, state, GetOr(counts, state, 0) + 1);
      } else {
        assert StatesOf(data[..i] + [item]) == StatesOf(data[..i]);
      }
      i := i + 1;
    }
    assert data[..|data|] == data;
  }

  /** The per-type loop of `save` for member lists: every record counts once. */
  method CountTypes(data: seq<Record>) returns (counts: Dict<string, int>)
    ensures counts == Tally(TypesOf(data))
  {
    counts := [];
    var i := 0;
    while i < |data|
      invariant 0 <= i <= |data|
      invariant counts == Tally(TypesOf(data[..i]))
    {
      var item := data[i];
      assert data[..i + 1] == data[..i] + [item];
      var memberType := if item.kind.Some? then item.kind.value else "Unknown";
      TypesOfSnoc(data[..i], item);
      TallySnoc(TypesOf(data[..i]), memberType);
      counts := Put(counts, memberType, GetOr(counts, memberType, 0) + 1);
      i := i + 1;
    }
    assert data[..|data|] == data;
  }

  // ---------------------------------------------------------------- metadata

  predicate AllCreated(data: seq<Record>) { forall r :: r in data ==> r.createdAt.Some? }

  predicate AllNumbered(data: seq<Record>) { forall r :: r in data ==> r.number.Some? }

  predicate AllContribute(data: seq<Record>) { forall r :: r in data ==> r.contributions.Some? }

  predicate AllLogged(data: seq<Record>) { forall r :: r in data ==> r.login.Some? }

  function CreatedTimes(data: seq<Record>): (ts: seq<int>)
    requires AllCreated(data)
    ensures |ts| == |data|
    ensures forall i :: 0 <= i < |data| ==> ts[i] == data[i].createdAt.value
  {
    if data == [] then [] else [data[0].createdAt.value] + CreatedTimes(data[1..])
  }

  /** `item.get('updated_at', item['created_at'])` of every record. */
  function TouchedTimes(data: seq<Record>): (ts: seq<int>)
    requires AllCreated(data)
    ensures |ts| == |data|
    ensures forall i :: 0 <= i < |data| ==>
      ts[i] == (if data[i].updatedAt.Some? then data[i].updatedAt.value else data[i].createdAt.value)
  {
    if data == [] then []
    else
      [if data[0].updatedAt.Some? then data[0].updatedAt.value else data[0].createdAt.value]
      + TouchedTimes(data[1..])
  }

  function Numbers(data: seq<Record>): (ns: seq<int>)
    requires AllNumbered(data)
    ensures |ns| == |data|
    ensures forall i :: 0 <= i < |data| ==> ns[i] == data[i].number.value
  {
    if data == [] then [] else [data[0].number.value] + Numbers(data[1..])
  }

  function ContributionCounts(data: seq<Record>): (cs: seq<int>)
    requires AllContribute(data)
    ensures |cs| == |data|
  {
    if data == [] then [] else [data[0].contributions.value] + ContributionCounts(data[1..])
  }

  /** The `first_contribution_at` values present, in order. */
  function FirstContributionDates(data: seq<Record>): (ds: seq<int>)
    ensures forall d :: d in ds <==> exists r :: r in data && r.firstContributionAt == Some(d)
  {
    if data == [] then []
    else
      (if data[0].firstContributionAt.Some? then [data[0].firstContributionAt.value] else [])
      + FirstContributionDates(data[1..])
  }

  /** `{'start': min(ds), 'end': max(ds)} if ds else None`. */
  function RangeOf(ds: seq<int>): Option<DateRange>
  {
    if ds == [] then None else Some(DateRange(MinOf(ds), MaxOf(ds)))
  }

  /**
   * The `date_range` and `state_counts` that `save` derives from the shape of `data`, or the
   * KeyError its comprehensions raise when a later record lacks a key the first one has.
   */
  function Summary(data: seq<Record>): Result<(Option<DateRange>, Dict<string, int>), Error>
  {
    if data == [] then Success((None, []))
    else
      match ShapeOf(data[0])
      case Dated =>
        if !AllCreated(data) then Failure(MissingKey("created_at"))
        else Success((Some(DateRange(MinOf(CreatedTimes(data)), MaxOf(TouchedTimes(data)))),
                      Tally(StatesOf(data))))
      case ContributorList =>
        if !AllContribute(data) then Failure(MissingKey("contributions"))
        else Success((RangeOf(FirstContributionDates(data)),
                      [("total_contributions", Sum(ContributionCounts(data)))]))
      case MemberList => Success((None, Tally(TypesOf(data))))
      case Plain => Success((None, [("total_count", |data|)]))
  }

  /** `completeness['total_count']`: from the summary statistics, else `len(data)`. */
  function TotalCount(data: seq<Record>, stats: Stats): Option<int>
  {
    if |stats| != 0 then
      if "open_issues_count" in stats then
        Some(StatOr(stats, "open_issues_count", 0) + StatOr(stats, "closed_issues_count", 0))
      else if "public_members" in stats then Some(stats["public_members"])
      else None
    else Some(|data|)
  }

  /** `completeness['last_item_number']`: the largest number, when the first record is numbered. */
  function LastItemNumber(data: seq<Record>): Result<Option<int>, Error>
  {
    if data == [] || data[0].number.None? then Success(None)
    else if !AllNumbered(data) then Failure(MissingKey("number"))
    else Success(Some(MaxOf(Numbers(data))))
  }

  /** The history already on disk for `path`, or none when the file is absent, unreadable or has no history. */
  function PriorHistory(files: map<string, StoredFile>, path: string): seq<UpdateRecord>
  {
    if path in files && files[path].Parsed? && files[path].entry.history.Some?
    then files[path].entry.history.value
    else []
  }

  /** The entry `save` writes, or the error it raises before writing. */
  function EntryToSave(files: map<string, StoredFile>, path: string, data: seq<Record>,
                       extra: ExtraMetadata, stats: Stats, now: int): Result<Entry, Error>
  {
    match Summary(data)
    case Failure(e) => Failure(e)
    case Success(summary) =>
      match LastItemNumber(data)
      case Failure(e) => Failure(e)
      case Success(lastNumber) =>
        var (range, counts) := summary;
        var metadata := Metadata(
          if extra.WithDateRange? then extra.range else range,
          Some(Completeness(|data|, TotalCount(data, stats), lastNumber)),
          Some(StateCoverage(counts, now)));
        var record := UpdateRecord(now, |data|, counts);
        Success(Entry(data, metadata, now, Some(PriorHistory(files, path) + [record])))
  }

  /** An entry passes both age checks of `load` at instant `now`. */
  predicate Fresh(e: Entry, now: int)
  {
    && now - e.lastUpdated <= MaxAge
    && (e.metadata.stateCoverage.Some? ==> now - e.metadata.stateCoverage.value.lastStateCheck <= MaxStateAge)
  }

  /** What `load` returns for `path`: nothing, the entry, or the parse error it does not catch. */
  function Lookup(files: map<string, StoredFile>, path: string, useCacheOnly: bool, now: int): Result<Option<Entry>, Error>
  {
    if path !in files then Success(None)
    else match files[path]
      case Unparseable => Failure(UnparseableCache(path))
      case Parsed(e) => if useCacheOnly || Fresh(e, now) then Success(Some(e)) else Success(None)
  }

  /** The shape-dependent part of `save`, with its counting loops. */
  method Summarize(data: seq<Record>) returns (r: Result<(Option<DateRange>, Dict<string, int>), Error>)
    ensures r == Summary(data)
  {
    if data == [] {
      return Success((None, []));
    }
    var sample := data[0];
    if sample.createdAt.Some? {
      if !AllCreated(data) {
        return Failure(MissingKey("created_at"));
      }
      var counts := CountStates(data);
      return Success((Some(DateRange(MinOf(CreatedTimes(data)), MaxOf(TouchedTimes(data)))), counts));
    } else if sample.contributions.Some? {
      var range := RangeOf(FirstContributionDates(data));
      if !AllContribute(data) {
        return Failure(MissingKey("contributions"));
      }
      return Success((range, [("total_contributions", Sum(ContributionCounts(data)))]));
    } else if sample.kind.Some? {
      var counts := CountTypes(data);
      return Success((None, counts));
    } else {
      return Success((None, [("total_count", |data|)]));
    }
  }

  // ---------------------------------------------------------------- lemmas about save

  /** `cached_count` is the number of records written, and the data is written as given. */
  lemma SaveCountsRecords(files: map<string, StoredFile>, path: string, data: seq<Record>,
                          extra: ExtraMetadata, stats: Stats, now: int)
    requires EntryToSave(files, path, data, extra, stats, now).Success?
    ensures var e := EntryToSave(files, path, data, extra, stats, now).value;
      && e.data == data
      && e.metadata.completeness.Some?
      && e.metadata.completeness.value.cachedCount == |data|
      && e.lastUpdated == now
  {
  }

  /** The total count: open + closed issues, else public members, else `len(data)` without statistics. */
  lemma TotalCountRules(data: seq<Record>, stats: Stats)
    ensures stats == map[] ==> TotalCount(data, stats) == Some(|data|)
    ensures "open_issues_count" in stats ==>
      TotalCount(data, stats) == Some(stats["open_issues_count"] + StatOr(stats, "closed_issues_count", 0))
    ensures "open_issues_count" !in stats && "public_members" in stats ==>
      TotalCount(data, stats) == Some(stats["public_members"])
    ensures stats != map[] && "open_issues_count" !in stats && "public_members" !in stats ==>
      TotalCount(data, stats).None?
  {
    if stats != map[] {
      assert |stats| != 0 by {
        var k :| k in stats;
      }
    }
  }

  /**
   * For issue-shaped data the date range runs from the earliest creation to the latest
   * update (creation when never updated); the state counts cover exactly the records with a
   * state, so they add up to at most `len(data)`.
   */
  lemma DatedSummary(data: seq<Record>)
    requires data != [] && ShapeOf(data[0]) == Dated && AllCreated(data)
    ensures Summary(data).Success?
    ensures var (range, counts) := Summary(data).value;
      && range.Some?
      && (exists r :: r in data && r.createdAt == Some(range.value.start))
      && (forall r :: r in data ==> range.value.start <= r.createdAt.value)
      && (forall r :: r in data ==> r.createdAt.value <= range.value.end || r.updatedAt.Some?)
      && (forall r :: r in data && r.updatedAt.Some? ==> r.updatedAt.value <= range.value.end)
      && (exists r :: r in data && (if r.updatedAt.Some? then r.updatedAt.value else r.createdAt.value) == range.value.end)
      && SumValues(counts) == CountWithState(data) <= |data|
      && (forall s :: GetOr(counts, s, 0) == Occurrences(StatesOf(data), s))
  {
    var range := Summary(data).value.0;
    var created := CreatedTimes(data);
    var touched := TouchedTimes(data);
    assert range == Some(DateRange(MinOf(created), MaxOf(touched)));
    var i :| 0 <= i < |created| && created[i] == MinOf(created);
    assert data[i] in data;
    var k :| 0 <= k < |touched| && touched[k] == MaxOf(touched);
    assert data[k] in data;
    forall r | r in data ensures range.value.start <= r.createdAt.value {
      var j :| 0 <= j < |data| && data[j] == r;
      assert created[j] in created;
    }
    forall r | r in data ensures (r.createdAt.value <= range.value.end || r.updatedAt.Some?)
                                && (r.updatedAt.Some? ==> r.updatedAt.value <= range.value.end) {
      var j :| 0 <= j < |data| && data[j] == r;
      assert touched[j] in touched;
    }
    TallySum(StatesOf(data));
    TallyUnique(StatesOf(data));
    StatesOfLength(data);
    forall s ensures GetOr(Tally(StatesOf(data)), s, 0) == Occurrences(StatesOf(data), s) {
      TallyCounts(StatesOf(data), s);
    }
  }

  /** For member lists every record is counted under its type ('Unknown' when absent). */
  lemma MemberSummary(data: seq<Record>)
    requires data != [] && ShapeOf(data[0]) == MemberList
    ensures Summary(data).Success?
    ensures Summary(data).value.0.None?
    ensures SumValues(Summary(data).value.1) == |data|
  {
    TallySum(TypesOf(data));
  }

  /** `last_item_number` is the largest number among the records, when they are numbered. */
  lemma LastItemNumberIsMax(data: seq<Record>)
    requires data != [] && data[0].number.Some? && AllNumbered(data)
    ensures LastItemNumber(data).Success? && LastItemNumber(data).value.Some?
    ensures var n := LastItemNumber(data).value.value;
      && (exists r :: r in data && r.number == Some(n))
      && (forall r :: r in data ==> r.number.value <= n)
  {
    var ns := Numbers(data);
    var n := MaxOf(ns);
    var i :| 0 <= i < |ns| && ns[i] == n;
    assert data[i] in data;
    forall r | r in data ensures r.number.value <= n {
      var j :| 0 <= j < |data| && data[j] == r;
      assert ns[j] in ns;
    }
  }

  /** A record lacking `created_at` after an issue-shaped first record makes `save` raise. */
  lemma SaveRaisesOnMixedShapes(data: seq<Record>)
    requires data != [] && ShapeOf(data[0]) == Dated
    requires exists r :: r in data && r.createdAt.None?
    ensures Summary(data) == Failure(MissingKey("created_at"))
  {
  }

  /**
   * `update_history` grows by exactly one record carrying the write time, the number of
   * records and the state counts; without a readable prior history it is that one record.
   */
  lemma SaveAppendsHistory(files: map<string, StoredFile>, path: string, data: seq<Record>,
                           extra: ExtraMetadata, stats: Stats, now: int)
    requires EntryToSave(files, path, data, extra, stats, now).Success?
    ensures var e := EntryToSave(files, path, data, extra, stats, now).value;
      && e.history.Some?
      && |e.history.value| == |PriorHistory(files, path)| + 1
      && e.history.value[..|e.history.value| - 1] == PriorHistory(files, path)
      && e.history.value[|e.history.value| - 1].timestamp == now
      && e.history.value[|e.history.value| - 1].itemsCount == |data|
      && e.metadata.stateCoverage.Some?
      && e.history.value[|e.history.value| - 1].stateCounts == e.metadata.stateCoverage.value.counts
    ensures path !in files ==>
      EntryToSave(files, path, data, extra, stats, now).value.history.value == [UpdateRecord(now, |data|, Summary(data).value.1)]
  {
    var e := EntryToSave(files, path, data, extra, stats, now).value;
    var h := e.history.value;
    assert h[..|h| - 1] == PriorHistory(files, path);
  }

  // ---------------------------------------------------------------- lemmas about load

  /** Load: absent file gives nothing; an unreadable file raises. */
  lemma LookupMissingOrUnreadable(files: map<string, StoredFile>, path: string, useCacheOnly: bool, now: int)
    ensures path !in files ==> Lookup(files, path, useCacheOnly, now) == Success(None)
    ensures path in files && files[path].Unparseable? ==> Lookup(files, path, useCacheOnly, now).Failure?
  {
  }

  /** In cache-only mode a readable entry is returned whatever its age. */
  lemma LookupCacheOnlyIgnoresAge(files: map<string, StoredFile>, path: string, now: int)
    requires path in files && files[path].Parsed?
    ensures Lookup(files, path, true, now) == Success(Some(files[path].entry))
  {
  }

  /**
   * Otherwise an entry is dropped exactly when it was written more than an hour ago or its
   * states were checked more than fifteen minutes ago; an entry exactly at a limit is kept.
   */
  lemma LookupStaleness(files: map<string, StoredFile>, path: string, now: int)
    requires path in files && files[path].Parsed?
    ensures var e := files[path].entry;
      var sc := e.metadata.stateCoverage;
      Lookup(files, path, false, now) == Success(None)
      <==> (now - e.lastUpdated > 3600 || (sc.Some? && now - sc.value.lastStateCheck > 900))
    ensures var e := files[path].entry;
      Lookup(files, path, false, now).Success? &&
      (Lookup(files, path, false, now).value.Some? ==> Lookup(files, path, false, now).value.value == e)
  {
  }

  lemma LookupAtThreshold(files: map<string, StoredFile>, path: string, written: int)
    requires path in files && files[path].Parsed?
    requires files[path].entry.lastUpdated == written
    requires files[path].entry.metadata.stateCoverage == Some(StateCoverage([], written + 3600 - 900))
    ensures Lookup(files, path, false, written + 3600).Success?
    ensures Lookup(files, path, false, written + 3600).value.Some?
  {
  }

  /** An entry just written by `save` is fresh when read back at the same instant. */
  lemma SavedEntryIsFresh(files: map<string, StoredFile>, path: string, data: seq<Record>,
                          extra: ExtraMetadata, stats: Stats, now: int)
    requires EntryToSave(files, path, data, extra, stats, now).Success?
    ensures var e := EntryToSave(files, path, data, extra, stats, now).value;
      Lookup(files[path := Parsed(e)], path, false, now) == Success(Some(e))
  {
  }

  // ---------------------------------------------------------------- the store

  class Cache {
    const cacheDir: string
    var files: map<string, StoredFile>

    constructor (cacheDir: string, files: map<string, StoredFile>)
      ensures this.cacheDir == cacheDir && this.files == files
    {
      this.cacheDir := cacheDir;
      this.files := files;
    }

    /** `get_cache_path`. */
    function GetCachePath(endpoint: string, params: seq<Param>): (path: string)
      ensures cacheDir <= path
    {
      CacheKey.CachePathInCacheDir(cacheDir, endpoint, params);
      CacheKey.CachePath(cacheDir, endpoint, params)
    }

    /** `save`: derive the metadata, merge the history already on disk, write the file. */
    method Save(path: string, data: seq<Record>, extra: ExtraMetadata, stats: Stats, now: int)
      returns (raised: Option<Error>)
      modifies this
      ensures raised.None? <==> EntryToSave(old(files), path, data, extra, stats, now).Success?
      ensures raised.None? ==> files == old(files)[path := Parsed(EntryToSave(old(files), path, data, extra, stats, now).value)]
      ensures raised.Some? ==> files == old(files) && raised.value == EntryToSave(old(files), path, data, extra, stats, now).error
    {
      var summary := Summarize(data);
      if summary.Failure? {
        return Some(summary.error);
      }
      var (range, counts) := summary.value;
      var lastNumber: Option<int> := None;
      if data != [] && data[0].number.Some? {
        if !AllNumbered(data) {
          return Some(MissingKey("number"));
        }
        lastNumber := Some(MaxOf(Numbers(data)));
      }
      var metadata := Metadata(
        if extra.WithDateRange? then extra.range else range,
        Some(Completeness(|data|, TotalCount(data, stats), lastNumber)),
        Some(StateCoverage(counts, now)));
      var record := UpdateRecord(now, |data|, counts);
      var history := [record];
      if path in files && files[path].Parsed? {
        var existing := files[path].entry;
        if existing.history.Some? {
          history := existing.history.value + [record];
        }
      }
      assert LastItemNumber(data) == Success(lastNumber);
      assert history == PriorHistory(files, path) + [record];
      assert EntryToSave(files, path, data, extra, stats, now) == Success(Entry(data, metadata, now, Some(history)));
      files := files[path := Parsed(Entry(data, metadata, now, Some(history)))];
      return None;
    }

    /** `load`: the entry at `path` unless it is absent or, outside cache-only mode, stale. */
    method Load(path: string, useCacheOnly: bool, now: int) returns (r: Result<Option<Entry>, Error>)
      ensures r == Lookup(files, path, useCacheOnly, now)
    {
      if path !in files {
        return Success(None);
      }
      if files[path].Unparseable? {
        return Failure(UnparseableCache(path));
      }
      var cache := files[path].entry;
      if !useCacheOnly {
        if now - cache.lastUpdated > MaxAge {
          return Success(None);
        }
        if cache.metadata.stateCoverage.Some? {
          if now - cache.metadata.stateCoverage.value.lastStateCheck > MaxStateAge {
            return Success(None);
          }
        }
      }
      return Success(Some(cache));
    }
  }
}
