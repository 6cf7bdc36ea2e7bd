/**
 * The data side of chart_contributors.py: `plot_contributor_trends` buckets each
 * contributor's monthly pull-request counts by contributor type inside a date window, and
 * `plot_open_prs_trend` clamps the date axis and filters each type's daily open-PR counts.
 * Drawing is left out; what the model returns is what would be drawn (the series, the
 * axis range and the title) or the early exit taken.
 */
module ChartContributors {
  import opened Common
  import opened Records
  import opened OrderedDict
  import opened Calendar
  import CacheKey

  // ---------------------------------------------------------------- contributor types and flags

  datatype Kind = Internal | External | Unknown

  /** The three series, in the order both charts draw them. */
  const Kinds: seq<Kind> := [Internal, External, Unknown]

  /** The key of a type in the data dictionaries. */
  function Key(k: Kind): string
  {
    match k
    case Internal => "internal"
    case External => "external"
    case Unknown => "unknown"
  }

  /** The capitalised name a title uses. */
  function Label(k: Kind): string
  {
    match k
    case Internal => "Internal"
    case External => "External"
    case Unknown => "Unknown"
  }

  /** The bucket a `type` string selects in `monthly_data`, if any. */
  function KindOf(t: string): (r: Option<Kind>)
    ensures r.Some? ==> Key(r.value) == t
    ensures r.None? ==> forall k: Kind :: Key(k) != t
  {
    if t == "internal" then Some(Internal)
    else if t == "external" then Some(External)
    else if t == "unknown" then Some(Unknown)
    else None
  }

  datatype Flags = Flags(showInternal: bool, showExternal: bool, showUnknown: bool)

  predicate Shows(flags: Flags, k: Kind)
  {
    match k
    case Internal => flags.showInternal
    case External => flags.showExternal
    case Unknown => flags.showUnknown
  }

  /** The skip test of the aggregation loop: only internal and external contributors are dropped there. */
  predicate Hidden(t: string, flags: Flags)
  {
    (t == "internal" && !flags.showInternal) || (t == "external" && !flags.showExternal)
  }

  /** The optional `start_date` / `end_date`, both inclusive. */
  datatype Window = Window(start: Option<Date>, end: Option<Date>)

  predicate InWindow(d: Date, w: Window)
  {
    !(w.start.Some? && Ordinal(d) < Ordinal(w.start.value)) && !(w.end.Some? && Ordinal(d) > Ordinal(w.end.value))
  }

  /** A `YYYY-MM` bucket whose first day parses and lies in the window. */
  predicate MonthIn(month: string, w: Window)
  {
    MonthStart(month).Some? && InWindow(MonthStart(month).value, w)
  }

  // ---------------------------------------------------------------- monthly buckets

  /** `{"contributions": ..., "contributors": set()}` for one type and month. */
  datatype MonthStats = MonthStats(contributions: int, contributors: set<string>)

  type Buckets = map<string, MonthStats>

  /** `monthly_data`: one bucket map per type. */
  datatype Monthly = Monthly(internal: Buckets, external: Buckets, unknown: Buckets)
  {
    function Of(k: Kind): Buckets
    {
      match k
      case Internal => internal
      case External => external
      case Unknown => unknown
    }

    function With(k: Kind, b: Buckets): Monthly
    {
      match k
      case Internal => this.(internal := b)
      case External => this.(external := b)
      case Unknown => this.(unknown := b)
    }
  }

  const NoActivity := Monthly(map[], map[], map[])

  function Lookup(b: Buckets, month: string): Option<MonthStats>
  {
    if month in b then Some(b[month]) else None
  }

  /** Adding `prs` pull requests by `username` to a month, creating the bucket when absent. */
  function Tally(b: Buckets, month: string, prs: int, username: string): (r: Buckets)
  {
    var created := if month in b then b else b[month := MonthStats(0, {})];
    created[month := MonthStats(created[month].contributions + prs, created[month].contributors + {username})]
  }

  // ---------------------------------------------------------------- the aggregation loop

  /** A contributor's record: `data["type"]` and `data["months"]`, either of which may be missing. */
  datatype ContributorData = ContributorData(kind: Option<string>, months: Option<Dict<string, int>>)

  /** One `(month, prs)` item of a contributor's months. */
  function AddMonth(md: Monthly, t: string, username: string, month: string, prs: int, w: Window): Result<Monthly, Error>
  {
    match MonthStart(month)
    case None => Failure(UnparseableDate(month + "-01"))
    case Some(d) =>
      if !InWindow(d, w) then Success(md)
      else match KindOf(t)
        case None => Failure(MissingKey(t))
        case Some(k) => Success(md.With(k, Tally(md.Of(k), month, prs, username)))
  }

  /** The inner loop over a contributor's months, from `md` on. */
  function AddMonths(md: Monthly, t: string, username: string, months: Dict<string, int>, w: Window): Result<Monthly, Error>
    decreases months
  {
    if months == [] then Success(md)
    else match AddMonth(md, t, username, months[0].0, months[0].1, w)
      case Failure(e) => Failure(e)
      case Success(next) => AddMonths(next, t, username, months[1..], w)
  }

  /** One iteration of the outer loop. */
  function AddContributor(md: Monthly, username: string, data: ContributorData, flags: Flags, w: Window): Result<Monthly, Error>
  {
    match data.kind
    case None => Failure(MissingKey("type"))
    case Some(t) =>
      if Hidden(t, flags) then Success(md)
      else match data.months
        case None => Failure(MissingKey("months"))
        case Some(months) => AddMonths(md, t, username, months, w)
  }

  /** The outer loop over the contributors, from `md` on. */
  function Aggregated(md: Monthly, cs: Dict<string, ContributorData>, flags: Flags, w: Window): Result<Monthly, Error>
    decreases cs
  {
    if cs == [] then Success(md)
    else match AddContributor(md, cs[0].0, cs[0].1, flags, w)
      case Failure(e) => Failure(e)
      case Success(next) => Aggregated(next, cs[1..], flags, w)
  }

  // ---------------------------------------------------------------- what a bucket should hold

  /** The pull requests a months dictionary records for `month`. */
  function CountFor(months: Dict<string, int>, month: string): int
  {
    if months == [] then 0 else (if months[0].0 == month then months[0].1 else 0) + CountFor(months[1..], month)
  }

  /** Whether a contributor's activity in `month` belongs in the `k` series. */
  predicate Included(data: ContributorData, k: Kind, month: string, flags: Flags, w: Window)
  {
    && data.kind == Some(Key(k))
    && !Hidden(Key(k), flags)
    && data.months.Some?
    && month in Keys(data.months.value)
    && MonthIn(month, w)
  }

  /** The contributors counted for `k` in `month`. */
  function ContributorsAt(cs: Dict<string, ContributorData>, k: Kind, month: string, flags: Flags, w: Window): set<string>
  {
    if cs == [] then {}
    else (if Included(cs[0].1, k, month, flags, w) then {cs[0].0} else {}) + ContributorsAt(cs[1..], k, month, flags, w)
  }

  /** The pull requests counted for `k` in `month`. */
  function ContributionsAt(cs: Dict<string, ContributorData>, k: Kind, month: string, flags: Flags, w: Window): int
  {
    if cs == [] then 0
    else (if Included(cs[0].1, k, month, flags, w) then CountFor(cs[0].1.months.value, month) else 0)
         + ContributionsAt(cs[1..], k, month, flags, w)
  }

  /** The bucket the source promises for `k` and `month`: absent exactly when nobody was counted there. */
  function Expected(cs: Dict<string, ContributorData>, k: Kind, month: string, flags: Flags, w: Window): Option<MonthStats>
  {
    var who := ContributorsAt(cs, k, month, flags, w);
    if who == {} then None else Some(MonthStats(ContributionsAt(cs, k, month, flags, w), who))
  }

  /** The contributors counted are exactly those whose record is included. */
  lemma {:induction false} ContributorsAtMeaning(cs: Dict<string, ContributorData>, k: Kind, month: string, flags: Flags, w: Window, u: string)
    ensures u in ContributorsAt(cs, k, month, flags, w) <==>
      exists i :: 0 <= i < |cs| && cs[i].0 == u && Included(cs[i].1, k, month, flags, w)
  {
    if cs != [] {
      ContributorsAtMeaning(cs[1..], k, month, flags, w, u);
      if u in ContributorsAt(cs[1..], k, month, flags, w) {
        var i :| 0 <= i < |cs[1..]| && cs[1..][i].0 == u && Included(cs[1..][i].1, k, month, flags, w);
        assert cs[i + 1] == cs[1..][i];
      }
      if exists i :: 0 <= i < |cs| && cs[i].0 == u && Included(cs[i].1, k, month, flags, w) {
        var i :| 0 <= i < |cs| && cs[i].0 == u && Included(cs[i].1, k, month, flags, w);
        if i > 0 {
          assert cs[1..][i - 1] == cs[i];
        }
      }
    }
  }

  /** Nobody counted means nothing counted. */
  lemma {:induction false} NobodyNothing(cs: Dict<string, ContributorData>, k: Kind, month: string, flags: Flags, w: Window)
    requires ContributorsAt(cs, k, month, flags, w) == {}
    ensures ContributionsAt(cs, k, month, flags, w) == 0
  {
    if cs != [] {
      NobodyNothing(cs[1..], k, month, flags, w);
    }
  }

  /** Merging two partial buckets: counts add, contributor sets unite. */
  function Combine(a: Option<MonthStats>, b: Option<MonthStats>): Option<MonthStats>
  {
    match (a, b)
    case (None, _) => b
    case (_, None) => a
    case (Some(x), Some(y)) => Some(MonthStats(x.contributions + y.contributions, x.contributors + y.contributors))
  }

  lemma CombineAssociates(a: Option<MonthStats>, b: Option<MonthStats>, c: Option<MonthStats>)
    ensures Combine(Combine(a, b), c) == Combine(a, Combine(b, c))
  {
    if a.Some? && b.Some? && c.Some? {
      assert a.value.contributors + b.value.contributors + c.value.contributors
          == a.value.contributors + (b.value.contributors + c.value.contributors);
    }
  }

  /** What one contributor adds to `k` and `month`. */
  function Part(t: string, username: string, months: Dict<string, int>, k: Kind, month: string, w: Window): Option<MonthStats>
  {
    if t == Key(k) && month in Keys(months) && MonthIn(month, w) then Some(MonthStats(CountFor(months, month), {username}))
    else None
  }

  lemma PartCons(t: string, username: string, months: Dict<string, int>, k: Kind, month: string, w: Window)
    requires months != []
    ensures Part(t, username, months, k, month, w) ==
      Combine(if t == Key(k) && months[0].0 == month && MonthIn(month, w) then Some(MonthStats(months[0].1, {username})) else None,
              Part(t, username, months[1..], k, month, w))
  {
    assert Keys(months) == [months[0].0] + Keys(months[1..]);
    assert {username} + {username} == {username};
    if month !in Keys(months[1..]) {
      CountForAbsent(months[1..], month);
    }
  }

  lemma {:induction false} CountForAbsent(months: Dict<string, int>, month: string)
    requires month !in Keys(months)
    ensures CountFor(months, month) == 0
  {
    if months != [] {
      assert Keys(months) == [months[0].0] + Keys(months[1..]);
      CountForAbsent(months[1..], month);
    }
  }

  /** One month item adds its count and the contributor to exactly one bucket. */
  lemma AddMonthLookup(md: Monthly, t: string, username: string, month: string, prs: int, w: Window, k: Kind, m: string)
    requires AddMonth(md, t, username, month, prs, w).Success?
    ensures Lookup(AddMonth(md, t, username, month, prs, w).value.Of(k), m) ==
      Combine(Lookup(md.Of(k), m), if t == Key(k) && month == m && MonthIn(m, w) then Some(MonthStats(prs, {username})) else None)
  {
    var d := MonthStart(month).value;
    if InWindow(d, w) {
      var k' := KindOf(t).value;
      WithOf(md, k', Tally(md.Of(k'), month, prs, username), k);
      TallyLookup(md.Of(k'), month, prs, username, m);
      if t == Key(k) {
        assert k' == k;
      }
    }
  }

  lemma WithOf(md: Monthly, k: Kind, b: Buckets, k': Kind)
    ensures md.With(k, b).Of(k') == if k == k' then b else md.Of(k')
  {
  }

  lemma TallyLookup(b: Buckets, month: string, prs: int, username: string, m: string)
    ensures Lookup(Tally(b, month, prs, username), m) ==
      Combine(Lookup(b, m), if month == m then Some(MonthStats(prs, {username})) else None)
  {
    if month == m && m !in b {
      assert {} + {username} == {username};
    }
  }

  /** The inner loop adds the contributor's part to every bucket. */
  lemma {:induction false} AddMonthsLookup(md: Monthly, t: string, username: string, months: Dict<string, int>, w: Window, k: Kind, m: string)
    decreases months
    requires AddMonths(md, t, username, months, w).Success?
    ensures Lookup(AddMonths(md, t, username, months, w).value.Of(k), m) ==
      Combine(Lookup(md.Of(k), m), Part(t, username, months, k, m, w))
  {
    if months != [] {
      var next := AddMonth(md, t, username, months[0].0, months[0].1, w).value;
      AddMonthLookup(md, t, username, months[0].0, months[0].1, w, k, m);
      AddMonthsLookup(next, t, username, months[1..], w, k, m);
      PartCons(t, username, months, k, m, w);
      CombineAssociates(Lookup(md.Of(k), m),
        if t == Key(k) && months[0].0 == m && MonthIn(m, w) then Some(MonthStats(months[0].1, {username})) else None,
        Part(t, username, months[1..], k, m, w));
    }
  }

  /** One contributor adds what `Included` says to every bucket. */
  lemma AddContributorLookup(md: Monthly, username: string, data: ContributorData, flags: Flags, w: Window, k: Kind, m: string)
    requires AddContributor(md, username, data, flags, w).Success?
    ensures Lookup(AddContributor(md, username, data, flags, w).value.Of(k), m) ==
      Combine(Lookup(md.Of(k), m), if Included(data, k, m, flags, w) then Some(MonthStats(CountFor(data.months.value, m), {username})) else None)
  {
    var t := data.kind.value;
    if !Hidden(t, flags) {
      AddMonthsLookup(md, t, username, data.months.value, w, k, m);
    }
  }

  lemma ExpectedCons(cs: Dict<string, ContributorData>, k: Kind, month: string, flags: Flags, w: Window)
    requires cs != []
    ensures Expected(cs, k, month, flags, w) ==
      Combine(if Included(cs[0].1, k, month, flags, w) then Some(MonthStats(CountFor(cs[0].1.months.value, month), {cs[0].0})) else None,
              Expected(cs[1..], k, month, flags, w))
  {
    var rest := ContributorsAt(cs[1..], k, month, flags, w);
    assert {} + rest == rest;
    if rest == {} {
      NobodyNothing(cs[1..], k, month, flags, w);
      assert {cs[0].0} + {} == {cs[0].0};
    }
  }

  /** The aggregation loop leaves in every bucket what `Expected` describes, on top of what was there. */
  lemma {:induction false} AggregatedLookup(md: Monthly, cs: Dict<string, ContributorData>, flags: Flags, w: Window, k: Kind, m: string)
    decreases cs
    requires Aggregated(md, cs, flags, w).Success?
    ensures Lookup(Aggregated(md, cs, flags, w).value.Of(k), m) == Combine(Lookup(md.Of(k), m), Expected(cs, k, m, flags, w))
  {
    if cs != [] {
      var next := AddContributor(md, cs[0].0, cs[0].1, flags, w).value;
      AddContributorLookup(md, cs[0].0, cs[0].1, flags, w, k, m);
      AggregatedLookup(next, cs[1..], flags, w, k, m);
      ExpectedCons(cs, k, m, flags, w);
      CombineAssociates(Lookup(md.Of(k), m),
        if Included(cs[0].1, k, m, flags, w) then Some(MonthStats(CountFor(cs[0].1.months.value, m), {cs[0].0})) else None,
        Expected(cs[1..], k, m, flags, w));
    }
  }

  /**
   * From empty buckets, a successful aggregation holds, for every type and month, the
   * summed pull requests and the set of contributors counted there, and no other bucket.
   */
  lemma AggregationMeaning(cs: Dict<string, ContributorData>, flags: Flags, w: Window, k: Kind, m: string)
    requires Aggregated(NoActivity, cs, flags, w).Success?
    ensures Lookup(Aggregated(NoActivity, cs, flags, w).value.Of(k), m) == Expected(cs, k, m, flags, w)
  {
    AggregatedLookup(NoActivity, cs, flags, w, k, m);
  }

  /** `show_unknown` plays no part in the aggregation: unknown contributors are bucketed either way. */
  lemma {:induction false} UnknownAlwaysAggregated(md: Monthly, cs: Dict<string, ContributorData>, flags: Flags, w: Window, show: bool)
    decreases cs
    ensures Aggregated(md, cs, flags, w) == Aggregated(md, cs, flags.(showUnknown := show), w)
  {
    if cs != [] {
      var r := AddContributor(md, cs[0].0, cs[0].1, flags, w);
      assert r == AddContributor(md, cs[0].0, cs[0].1, flags.(showUnknown := show), w);
      if r.Success? {
        UnknownAlwaysAggregated(r.value, cs[1..], flags, w, show);
      }
    }
  }

  // ---------------------------------------------------------------- min and max of the months

  /** `m` is `min(months)`: no month is below it in Python's string order. */
  predicate IsLeast(m: string, months: set<string>)
  {
    m in months && forall x :: x in months ==> !CacheKey.StrLt(x, m)
  }

  /** `m` is `max(months)`: no month is above it in Python's string order. */
  predicate IsGreatest(m: string, months: set<string>)
  {
    m in months && forall x :: x in months ==> !CacheKey.StrLt(m, x)
  }

  lemma LeastOfInsert(x: string, seen: set<string>, lo: string)
    requires IsLeast(lo, seen)
    ensures IsLeast(if CacheKey.StrLt(x, lo) then x else lo, seen + {x})
  {
    CacheKey.StrLtIrreflexive(x);
    if CacheKey.StrLt(x, lo) {
      forall y | y in seen
        ensures !CacheKey.StrLt(y, x)
      {
        if CacheKey.StrLt(y, x) {
          CacheKey.StrLtTransitive(y, x, lo);
        }
      }
    }
  }

  lemma GreatestOfInsert(x: string, seen: set<string>, hi: string)
    requires IsGreatest(hi, seen)
    ensures IsGreatest(if CacheKey.StrLt(hi, x) then x else hi, seen + {x})
  {
    CacheKey.StrLtIrreflexive(x);
    if CacheKey.StrLt(hi, x) {
      forall y | y in seen
        ensures !CacheKey.StrLt(x, y)
      {
        if CacheKey.StrLt(x, y) {
          CacheKey.StrLtTransitive(hi, x, y);
        }
      }
    }
  }

  /** `min(months)`, which the string order determines uniquely. */
  ghost function Least(months: set<string>): (lo: string)
    requires months != {}
    ensures IsLeast(lo, months)
    decreases |months|
  {
    var x :| x in months;
    var rest := months - {x};
    assert months == rest + {x};
    if rest == {} then
      CacheKey.StrLtIrreflexive(x);
      x
    else
      var lo := Least(rest);
      LeastOfInsert(x, rest, lo);
      if CacheKey.StrLt(x, lo) then x else lo
  }

  /** `max(months)`, which the string order determines uniquely. */
  ghost function Greatest(months: set<string>): (hi: string)
    requires months != {}
    ensures IsGreatest(hi, months)
    decreases |months|
  {
    var x :| x in months;
    var rest := months - {x};
    assert months == rest + {x};
    if rest == {} then
      CacheKey.StrLtIrreflexive(x);
      x
    else
      var hi := Greatest(rest);
      GreatestOfInsert(x, rest, hi);
      if CacheKey.StrLt(hi, x) then x else hi
  }

  /** The string order is total, so a set has one least and one greatest element. */
  lemma BoundsUnique(a: string, b: string, months: set<string>)
    ensures IsLeast(a, months) && IsLeast(b, months) ==> a == b
    ensures IsGreatest(a, months) && IsGreatest(b, months) ==> a == b
  {
    if a != b {
      CacheKey.StrLtTotal(a, b);
    }
  }

  /** `min(all_months)` and `max(all_months)`, found in one pass over the set. */
  method MonthBounds(months: set<string>) returns (lo: string, hi: string)
    requires months != {}
    ensures lo == Least(months) && hi == Greatest(months)
  {
    var x :| x in months;
    CacheKey.StrLtIrreflexive(x);
    lo, hi := x, x;
    var seen := {x};
    var rest := months - {x};
    while rest != {}
      invariant seen <= months && rest == months - seen
      invariant IsLeast(lo, seen) && IsGreatest(hi, seen)
      decreases |rest|
    {
      var y :| y in rest;
      LeastOfInsert(y, seen, lo);
      GreatestOfInsert(y, seen, hi);
      if CacheKey.StrLt(y, lo) {
        lo := y;
      }
      if CacheKey.StrLt(hi, y) {
        hi := y;
      }
      seen := seen + {y};
      rest := rest - {y};
    }
    assert seen == months;
    BoundsUnique(lo, Least(months), months);
    BoundsUnique(hi, Greatest(months), months);
  }

  /**
   * A bucket lands on `pd.date_range(first, last, freq="MS")`: the first day of its month lies
   * between the two. The left merge onto that range keeps exactly these buckets.
   */
  predicate OnRange(month: string, first: Date, last: Date)
  {
    MonthStart(month).Some? && Ordinal(first) <= Ordinal(MonthStart(month).value) <= Ordinal(last)
  }

  /** A bucket key written `YYYY-MM`, with a two-digit month. */
  predicate TwoDigitMonth(month: string)
  {
    |month| == 7 && MonthStart(month).Some?
  }

  /** A parsed `YYYY-MM` key is the `%Y-%m` of its first day. */
  lemma TwoDigitMonthForm(month: string)
    requires TwoDigitMonth(month)
    ensures var d := MonthStart(month).value;
      d.day == 1 && month == Pad(d.year, 4) + "-" + Pad(d.month, 2)
  {
    var s := month + "-01";
    var d := MonthStart(month).value;
    assert s[8] == '0';
    FormatParseDate(s);
    assert FormatDate(d) == s;
    assert FormatDate(d)[..7] == month;
    assert FormatDate(d)[8..] == Pad(d.day, 2) == "01";
    NumberOfPad(d.day, 2);
    ShortNumber("01");
  }

  /** A strictly smaller first part of the same length decides the order of two strings. */
  lemma {:induction false} StrLtAppend(x: string, y: string, u: string, v: string)
    requires |x| == |y| && CacheKey.StrLt(x, y)
    ensures CacheKey.StrLt(x + u, y + v)
  {
    if x[0] == y[0] {
      assert (x + u)[1..] == x[1..] + u && (y + v)[1..] == y[1..] + v;
      StrLtAppend(x[1..], y[1..], u, v);
    }
  }

  /** A common prefix does not change the order of two strings. */
  lemma {:induction false} StrLtPrefix(p: string, u: string, v: string)
    requires CacheKey.StrLt(u, v)
    ensures CacheKey.StrLt(p + u, p + v)
  {
    if p == [] {
      assert p + u == u && p + v == v;
    } else {
      assert (p + u)[0] == (p + v)[0] == p[0];
      assert (p + u)[1..] == p[1..] + u && (p + v)[1..] == p[1..] + v;
      StrLtPrefix(p[1..], u, v);
    }
  }

  /** Zero-padded numbers of one width order as strings as they order as numbers. */
  lemma {:induction false} PadOrder(a: nat, b: nat, width: nat)
    requires a < b < Pow10(width)
    ensures CacheKey.StrLt(Pad(a, width), Pad(b, width))
  {
    PadLastDigit(a, width);
    PadLastDigit(b, width);
    if a / 10 < b / 10 {
      PadOrder(a / 10, b / 10, width - 1);
      StrLtAppend(Pad(a / 10, width - 1), Pad(b / 10, width - 1), [DigitChar(a % 10)], [DigitChar(b % 10)]);
    } else {
      StrLtPrefix(Pad(a / 10, width - 1), [DigitChar(a % 10)], [DigitChar(b % 10)]);
    }
  }

  /** `%Y-%m` keys order as strings as their months order in the calendar. */
  lemma MonthKeyOrder(ya: nat, ma: nat, yb: nat, mb: nat)
    requires ya <= 9999 && yb <= 9999 && ma <= 99 && mb <= 99
    requires ya < yb || (ya == yb && ma < mb)
    ensures CacheKey.StrLt(Pad(ya, 4) + "-" + Pad(ma, 2), Pad(yb, 4) + "-" + Pad(mb, 2))
  {
    assert Pow10(4) == 10000 && Pow10(2) == 100;
    if ya < yb {
      PadOrder(ya, yb, 4);
      StrLtAppend(Pad(ya, 4), Pad(yb, 4), "-" + Pad(ma, 2), "-" + Pad(mb, 2));
      assert Pad(ya, 4) + "-" + Pad(ma, 2) == Pad(ya, 4) + ("-" + Pad(ma, 2));
      assert Pad(yb, 4) + "-" + Pad(mb, 2) == Pad(yb, 4) + ("-" + Pad(mb, 2));
    } else {
      PadOrder(ma, mb, 2);
      StrLtPrefix(Pad(ya, 4) + "-", Pad(ma, 2), Pad(mb, 2));
    }
  }

  /** For `YYYY-MM` keys, the earlier month is the smaller string. */
  lemma TwoDigitMonthOrder(a: string, b: string)
    requires TwoDigitMonth(a) && TwoDigitMonth(b)
    requires Ordinal(MonthStart(a).value) < Ordinal(MonthStart(b).value)
    ensures CacheKey.StrLt(a, b)
  {
    var da := MonthStart(a).value;
    var db := MonthStart(b).value;
    TwoDigitMonthForm(a);
    TwoDigitMonthForm(b);
    OrdinalIsChronological(da, db);
    MonthKeyOrder(da.year, da.month, db.year, db.month);
  }

  /** When every key is written `YYYY-MM`, the range from the least to the greatest key holds every key. */
  lemma TwoDigitMonthsOnRange(months: set<string>, m: string)
    requires months != {} && forall x :: x in months ==> TwoDigitMonth(x)
    requires m in months
    ensures MonthStart(Least(months)).Some? && MonthStart(Greatest(months)).Some?
      && OnRange(m, MonthStart(Least(months)).value, MonthStart(Greatest(months)).value)
  {
    var lo := Least(months);
    var hi := Greatest(months);
    if Ordinal(MonthStart(m).value) < Ordinal(MonthStart(lo).value) {
      TwoDigitMonthOrder(m, lo);
    }
    if Ordinal(MonthStart(hi).value) < Ordinal(MonthStart(m).value) {
      TwoDigitMonthOrder(hi, m);
    }
  }

  /**
   * With a one-digit month the string order is not the calendar's: for `{"2023-9", "2023-10"}`
   * the least key is `"2023-10"` and the greatest `"2023-9"`, so the range is empty and no
   * bucket is drawn.
   */
  lemma OneDigitMonthEmptiesRange()
    ensures Least({"2023-9", "2023-10"}) == "2023-10" && Greatest({"2023-9", "2023-10"}) == "2023-9"
    ensures MonthStart("2023-10") == Some(Date(2023, 10, 1)) && MonthStart("2023-9") == Some(Date(2023, 9, 1))
    ensures forall m :: !OnRange(m, Date(2023, 10, 1), Date(2023, 9, 1))
  {
    var months := {"2023-9", "2023-10"};
    assert CacheKey.StrLt("2023-10", "2023-9") by {
      assert "2023-10"[1..] == "023-10" && "2023-9"[1..] == "023-9";
      assert "023-10"[1..] == "23-10" && "023-9"[1..] == "23-9";
      assert "23-10"[1..] == "3-10" && "23-9"[1..] == "3-9";
      assert "3-10"[1..] == "-10" && "3-9"[1..] == "-9";
      assert "-10"[1..] == "10" && "-9"[1..] == "9";
    }
    CacheKey.StrLtIrreflexive("2023-10");
    CacheKey.StrLtIrreflexive("2023-9");
    assert IsLeast("2023-10", months);
    assert IsGreatest("2023-9", months);
    BoundsUnique("2023-10", Least(months), months);
    BoundsUnique("2023-9", Greatest(months), months);
    OctoberAndSeptember();
  }

  /** The first days of October and September 2023, from keys with two and one month digits. */
  lemma OctoberAndSeptember()
    ensures MonthStart("2023-10") == Some(Date(2023, 10, 1)) && MonthStart("2023-9") == Some(Date(2023, 9, 1))
  {
    YearNumber("2023");
    var october := "2023-10" + "-01";
    assert october == "2023-10-01";
    assert october[..4] == "2023";
    assert october[5..7] == "10";
    assert october[8..] == "01";
    assert FieldEnd(october, 5, '-') == Some(7);
    var september := "2023-9" + "-01";
    assert september == "2023-9-01";
    assert september[..4] == "2023";
    assert september[5..6] == "9";
    assert september[7..] == "01";
    assert FieldEnd(september, 5, '-') == Some(6);
    ShortNumber("10");
    ShortNumber("9");
    ShortNumber("01");
  }

  // ---------------------------------------------------------------- plot_contributor_trends

  /** One drawn type: its buckets, each giving a contributions line and a contributor-count line. */
  datatype Series = Series(kind: Kind, stats: Buckets)

  /** The outcome of `plot_contributor_trends`: an early exit, or what is drawn. */
  datatype Trend = NoData | NoDataInRange | NoDataAfterFiltering 
                 | Plotted(title: string, series: seq<Series>, axis: set<string>, first: Date, last: Date)

  /** The skip test of the axis and drawing loops (`has_*_data`). */
  predicate Plottable(md: Monthly, k: Kind, flags: Flags)
  {
    Shows(flags, k) && md.Of(k) != map[]
  }

  /** `all_months` after the axis loop has visited `ks`. */
  function AxisOf(md: Monthly, flags: Flags, ks: seq<Kind>): (axis: set<string>)
    ensures forall m :: m in axis <==> exists k :: k in ks && Plottable(md, k, flags) && m in md.Of(k)
  {
    if ks == [] then {}
    else
      var k := ks[|ks| - 1];
      assert forall k' :: k' in ks <==> k' in ks[..|ks| - 1] || k' == k;
      AxisOf(md, flags, ks[..|ks| - 1]) + (if Plottable(md, k, flags) then md.Of(k).Keys else {})
  }

  /** The series drawn after the drawing loop has visited `ks`. */
  function SeriesOf(md: Monthly, flags: Flags, ks: seq<Kind>): (series: seq<Series>)
    ensures forall i :: 0 <= i < |series| ==> Plottable(md, series[i].kind, flags) && series[i].stats == md.Of(series[i].kind)
    ensures forall k :: k in ks && Plottable(md, k, flags) ==> exists i :: 0 <= i < |series| && series[i].kind == k
  {
    if ks == [] then []
    else
      var k := ks[|ks| - 1];
      var prev := SeriesOf(md, flags, ks[..|ks| - 1]);
      assert forall k' :: k' in ks <==> k' in ks[..|ks| - 1] || k' == k;
      if Plottable(md, k, flags) then
        var series := prev + [Series(k, md.Of(k))];
        assert forall i :: 0 <= i < |prev| ==> series[i] == prev[i];
        assert series[|prev|].kind == k;
        series
      else prev
  }

  /** `title_parts`. */
  function TitleParts(flags: Flags): seq<string>
  {
    (if flags.showInternal then [Label(Internal)] else [])
    + (if flags.showExternal then [Label(External)] else [])
    + (if flags.showUnknown then [Label(Unknown)] else [])
  }

  function ShownCount(flags: Flags): nat
  {
    (if flags.showInternal then 1 else 0) + (if flags.showExternal then 1 else 0) + (if flags.showUnknown then 1 else 0)
  }

  /** `sep.join(parts)`. */
  function Join(parts: seq<string>, sep: string): string
  {
    if parts == [] then "" else if |parts| == 1 then parts[0] else parts[0] + sep + Join(parts[1..], sep)
  }

  function TrendTitle(flags: Flags): string
  {
    var parts := TitleParts(flags);
    if |parts| > 0 then Join(parts, " and ") + " Contributor Activity by Month" else "Contributor Activity by Month"
  }

  /** The title names exactly the types the flags show. */
  lemma TitlePartsMeaning(flags: Flags)
    ensures |TitleParts(flags)| == ShownCount(flags)
    ensures forall k :: Label(k) in TitleParts(flags) <==> Shows(flags, k)
  {
    assert "Internal" != "External" && "Internal" != "Unknown" && "External" != "Unknown";
  }

  /** The trend chart's title: the bare heading when no type is shown, and a single shown type named alone. */
  lemma TrendTitleCases(flags: Flags)
    ensures ShownCount(flags) == 0 ==> TrendTitle(flags) == "Contributor Activity by Month"
    ensures forall k :: ShownCount(flags) == 1 && Shows(flags, k) ==>
      TrendTitle(flags) == Label(k) + " Contributor Activity by Month"
  {
  }

  /**
   * The outcome of `plot_contributor_trends` for contributors `cs`. A drawn chart's range runs
   * from the first day of `min(all_months)` to that of `max(all_months)`, each read by `strptime`.
   */
  ghost function TrendOutcome(cs: Dict<string, ContributorData>, flags: Flags, w: Window): Result<Trend, Error>
  {
    if cs == [] then Success(NoData)
    else match Aggregated(NoActivity, cs, flags, w)
      case Failure(e) => Failure(e)
      case Success(md) =>
        if !(Plottable(md, Internal, flags) || Plottable(md, External, flags) || Plottable(md, Unknown, flags)) then
          Success(NoDataInRange)
        else
          var axis := AxisOf(md, flags, Kinds);
          if axis == {} then Success(NoDataAfterFiltering)
          else
            var lo := Least(axis);
            var hi := Greatest(axis);
            if MonthStart(lo).None? then Failure(UnparseableDate(lo + "-01"))
            else if MonthStart(hi).None? then Failure(UnparseableDate(hi + "-01"))
            else Success(Plotted(TrendTitle(flags), SeriesOf(md, flags, Kinds), axis, MonthStart(lo).value, MonthStart(hi).value))
  }

  /** The inner loop of the aggregation: one contributor's `(month, prs)` items, in order. */
  method AddMonthsLoop(monthly: Monthly, t: string, username: string, months: Dict<string, int>, w: Window)
    returns (r: Result<Monthly, Error>)
    ensures r == AddMonths(monthly, t, username, months, w)
  {
    var current := monthly;
    for j := 0 to |months|
      invariant AddMonths(current, t, username, months[j..], w) == AddMonths(monthly, t, username, months, w)
    {
      var month := months[j].0;
      var prs := months[j].1;
      AddMonthsStep(current, t, username, months, j, w);
      var monthDate := MonthStart(month);
      if monthDate.None? {
        return Failure(UnparseableDate(month + "-01"));
      }
      if !InWindow(monthDate.value, w) {
        assert AddMonth(current, t, username, month, prs, w) == Success(current);
        continue;
      }
      var k := KindOf(t);
      if k.None? {
        return Failure(MissingKey(t));
      }
      var bucket := TallyInto(current.Of(k.value), month, prs, username);
      AddMonthTallies(current, t, username, month, prs, w, k.value, bucket);
      current := current.With(k.value, bucket);
    }
    assert months[|months|..] == [];
    return Success(current);
  }

  /** One item of the inner loop, taken from position `j`. */
  lemma AddMonthsStep(md: Monthly, t: string, username: string, months: Dict<string, int>, j: nat, w: Window)
    requires j < |months|
    ensures AddMonths(md, t, username, months[j..], w) ==
      match AddMonth(md, t, username, months[j].0, months[j].1, w)
      case Failure(e) => Failure(e)
      case Success(next) => AddMonths(next, t, username, months[j + 1..], w)
  {
    assert months[j..][0] == months[j] && months[j..][1..] == months[j + 1..];
  }

  /** An item inside the window, of a known type, tallies into that type's buckets. */
  lemma AddMonthTallies(md: Monthly, t: string, username: string, month: string, prs: int, w: Window,
                        k: Kind, b: Buckets)
    requires MonthStart(month).Some? && InWindow(MonthStart(month).value, w)
    requires KindOf(t) == Some(k) && b == Tally(md.Of(k), month, prs, username)
    ensures AddMonth(md, t, username, month, prs, w) == Success(md.With(k, b))
  {
  }

  /** The bucket update of the loop body: create the month's entry when missing, then add to it. */
  method TallyInto(b: Buckets, month: string, prs: int, username: string) returns (r: Buckets)
    ensures r == Tally(b, month, prs, username)
  {
    r := b;
    ghost var created := if month in b then b else b[month := MonthStats(0, {})];
    if month !in r {
      r := r[month := MonthStats(0, {})];
    }
    assert r == created;
    TallyCreated(b, created, month, prs, username);
    r := r[month := MonthStats(r[month].contributions + prs, r[month].contributors + {username})];
  }

  /** `Tally` is adding to the bucket once it has been created. */
  lemma TallyCreated(b: Buckets, created: Buckets, month: string, prs: int, username: string)
    requires created == if month in b then b else b[month := MonthStats(0, {})]
    ensures created[month := MonthStats(created[month].contributions + prs, created[month].contributors + {username})]
      == Tally(b, month, prs, username)
  {
  }

  /** The outer loop of the aggregation: `monthly_data` built from the contributors, in order. */
  method Aggregate(cs: Dict<string, ContributorData>, flags: Flags, w: Window) returns (r: Result<Monthly, Error>)
    ensures r == Aggregated(NoActivity, cs, flags, w)
  {
    var monthly := NoActivity;
    for i := 0 to |cs|
      invariant Aggregated(monthly, cs[i..], flags, w) == Aggregated(NoActivity, cs, flags, w)
    {
      var username := cs[i].0;
      var data := cs[i].1;
      assert cs[i..][0] == cs[i] && cs[i..][1..] == cs[i + 1..];
      if data.kind.None? {
        return Failure(MissingKey("type"));
      }
      var t := data.kind.value;
      if Hidden(t, flags) {
        continue;
      }
      if data.months.None? {
        return Failure(MissingKey("months"));
      }
      var next := AddMonthsLoop(monthly, t, username, data.months.value, w);
      if next.Failure? {
        return Failure(next.error);
      }
      monthly := next.value;
    }
    assert cs[|cs|..] == [];
    return Success(monthly);
  }

  method PlotContributorTrends(cs: Dict<string, ContributorData>, flags: Flags, w: Window) returns (r: Result<Trend, Error>)
    ensures r == TrendOutcome(cs, flags, w)
  {
    if cs == [] {
      return Success(NoData);
    }
    var aggregated := Aggregate(cs, flags, w);
    if aggregated.Failure? {
      return Failure(aggregated.error);
    }
    var monthly := aggregated.value;
    if !(Plottable(monthly, Internal, flags) || Plottable(monthly, External, flags) || Plottable(monthly, Unknown, flags)) {
      return Success(NoDataInRange);
    }
    var axis := CollectMonths(monthly, flags);
    if axis == {} {
      return Success(NoDataAfterFiltering);
    }
    var lo, hi := MonthBounds(axis);
    var first := MonthStart(lo);
    if first.None? {
      return Failure(UnparseableDate(lo + "-01"));
    }
    var last := MonthStart(hi);
    if last.None? {
      return Failure(UnparseableDate(hi + "-01"));
    }
    var series := CollectSeries(monthly, flags);
    return Success(Plotted(TrendTitle(flags), series, axis, first.value, last.value));
  }

  /** The axis loop: the union of the months of every type that is shown and has data. */
  method CollectMonths(monthly: Monthly, flags: Flags) returns (axis: set<string>)
    ensures axis == AxisOf(monthly, flags, Kinds)
  {
    axis := {};
    for t := 0 to |Kinds|
      invariant axis == AxisOf(monthly, flags, Kinds[..t])
    {
      var k := Kinds[t];
      assert Kinds[..t + 1][..t] == Kinds[..t];
      if !Plottable(monthly, k, flags) {
        continue;
      }
      axis := axis + monthly.Of(k).Keys;
    }
    assert Kinds[..|Kinds|] == Kinds;
  }

  /** The plotting loop: one line per type that is shown and has data, in the order of `Kinds`. */
  method CollectSeries(monthly: Monthly, flags: Flags) returns (series: seq<Series>)
    ensures series == SeriesOf(monthly, flags, Kinds)
  {
    series := [];
    for t := 0 to |Kinds|
      invariant series == SeriesOf(monthly, flags, Kinds[..t])
    {
      var k := Kinds[t];
      assert Kinds[..t + 1][..t] == Kinds[..t];
      if !Plottable(monthly, k, flags) {
        continue;
      }
      series := series + [Series(k, monthly.Of(k))];
    }
    assert Kinds[..|Kinds|] == Kinds;
  }

  /** The "no data after filtering" exit is never taken: a type with data always contributes axis months. */
  lemma TrendAxisNeverEmpty(cs: Dict<string, ContributorData>, flags: Flags, w: Window)
    ensures TrendOutcome(cs, flags, w) != Success(NoDataAfterFiltering)
  {
    if cs != [] && Aggregated(NoActivity, cs, flags, w).Success? {
      var md := Aggregated(NoActivity, cs, flags, w).value;
      if k :| k in Kinds && Plottable(md, k, flags) {
        var m :| m in md.Of(k);
        assert m in AxisOf(md, flags, Kinds);
      }
    }
  }

  /** The "no data in selected date range" exit is taken exactly when no shown type counted anybody. */
  lemma TrendNoDataInRange(cs: Dict<string, ContributorData>, flags: Flags, w: Window)
    requires cs != [] && Aggregated(NoActivity, cs, flags, w).Success?
    ensures TrendOutcome(cs, flags, w) == Success(NoDataInRange) <==>
      forall k, m :: Shows(flags, k) ==> ContributorsAt(cs, k, m, flags, w) == {}
  {
    var md := Aggregated(NoActivity, cs, flags, w).value;
    if TrendOutcome(cs, flags, w) == Success(NoDataInRange) {
      forall k, m | Shows(flags, k)
        ensures ContributorsAt(cs, k, m, flags, w) == {}
      {
        AggregationMeaning(cs, flags, w, k, m);
      }
    } else {
      var k := if Plottable(md, Internal, flags) then Internal else if Plottable(md, External, flags) then External else Unknown;
      assert Plottable(md, k, flags);
      var m :| m in md.Of(k);
      AggregationMeaning(cs, flags, w, k, m);
      assert Shows(flags, k) && ContributorsAt(cs, k, m, flags, w) != {};
    }
  }

  /** A drawn chart carries the title, the series and the axis of the aggregated buckets, and the range from its least to its greatest month. */
  lemma PlottedFrom(cs: Dict<string, ContributorData>, flags: Flags, w: Window)
    requires TrendOutcome(cs, flags, w).Success? && TrendOutcome(cs, flags, w).value.Plotted?
    ensures Aggregated(NoActivity, cs, flags, w).Success?
    ensures var md := Aggregated(NoActivity, cs, flags, w).value;
      var axis := AxisOf(md, flags, Kinds);
      && axis != {}
      && MonthStart(Least(axis)).Some? && MonthStart(Greatest(axis)).Some?
      && TrendOutcome(cs, flags, w).value ==
           Plotted(TrendTitle(flags), SeriesOf(md, flags, Kinds), axis, MonthStart(Least(axis)).value, MonthStart(Greatest(axis)).value)
  {
  }

  /** Each drawn series holds, month by month, exactly the expected bucket of its type. */
  lemma SeriesHoldExpected(cs: Dict<string, ContributorData>, flags: Flags, w: Window, md: Monthly)
    requires Aggregated(NoActivity, cs, flags, w) == Success(md)
    ensures var series := SeriesOf(md, flags, Kinds);
      forall i, m :: 0 <= i < |series| ==>
        Shows(flags, series[i].kind) && Lookup(series[i].stats, m) == Expected(cs, series[i].kind, m, flags, w)
  {
    var series := SeriesOf(md, flags, Kinds);
    forall i, m | 0 <= i < |series|
      ensures Lookup(series[i].stats, m) == Expected(cs, series[i].kind, m, flags, w)
    {
      AggregationMeaning(cs, flags, w, series[i].kind, m);
    }
  }

  /**
   * A shown type that counted somebody in a month has a series, and the month is in `all_months`;
   * when every key of `all_months` is written `YYYY-MM` the month also lies on the drawn range.
   */
  lemma CountedIsDrawn(cs: Dict<string, ContributorData>, flags: Flags, w: Window, md: Monthly, k: Kind, m: string)
    requires Aggregated(NoActivity, cs, flags, w) == Success(md)
    requires Shows(flags, k) && ContributorsAt(cs, k, m, flags, w) != {}
    ensures m in AxisOf(md, flags, Kinds)
    ensures exists i :: 0 <= i < |SeriesOf(md, flags, Kinds)| && SeriesOf(md, flags, Kinds)[i].kind == k
    ensures var axis := AxisOf(md, flags, Kinds);
      (forall x :: x in axis ==> TwoDigitMonth(x)) ==>
        MonthStart(Least(axis)).Some? && MonthStart(Greatest(axis)).Some?
        && OnRange(m, MonthStart(Least(axis)).value, MonthStart(Greatest(axis)).value)
  {
    AggregationMeaning(cs, flags, w, k, m);
    assert m in md.Of(k);
    assert k in Kinds && Plottable(md, k, flags);
    var series := SeriesOf(md, flags, Kinds);
    assert exists i :: 0 <= i < |series| && series[i].kind == k;
    var axis := AxisOf(md, flags, Kinds);
    if forall x :: x in axis ==> TwoDigitMonth(x) {
      TwoDigitMonthsOnRange(axis, m);
    }
  }

  /** Every axis month parses to a first day inside the window. */
  lemma AxisInWindow(cs: Dict<string, ContributorData>, flags: Flags, w: Window, md: Monthly, m: string)
    requires Aggregated(NoActivity, cs, flags, w) == Success(md)
    requires m in AxisOf(md, flags, Kinds)
    ensures MonthIn(m, w)
  {
    var k :| k in Kinds && Plottable(md, k, flags) && m in md.Of(k);
    AggregationMeaning(cs, flags, w, k, m);
    var u :| u in ContributorsAt(cs, k, m, flags, w);
    ContributorsAtMeaning(cs, k, m, flags, w, u);
  }

  /**
   * What the trend chart draws: the source's title; one series per shown type that has data,
   * whose buckets are exactly the months where someone of that type was counted, holding
   * the summed pull requests and the contributors counted; `all_months`, holding every such
   * month, each parsing to a first day inside the window; and the range from the first day of
   * the least key of `all_months` to that of the greatest. When every key is written `YYYY-MM`
   * the range holds every key, so every counted bucket is drawn (`OneDigitMonthEmptiesRange`
   * shows that a one-digit month can leave it empty).
   */
  lemma TrendPlotted(cs: Dict<string, ContributorData>, flags: Flags, w: Window)
    requires TrendOutcome(cs, flags, w).Success? && TrendOutcome(cs, flags, w).value.Plotted?
    ensures var p := TrendOutcome(cs, flags, w).value;
      && p.title == TrendTitle(flags)
      && (forall i, m :: 0 <= i < |p.series| ==>
            Shows(flags, p.series[i].kind) && Lookup(p.series[i].stats, m) == Expected(cs, p.series[i].kind, m, flags, w))
      && (forall k, m :: Shows(flags, k) && ContributorsAt(cs, k, m, flags, w) != {} ==>
            m in p.axis && exists i :: 0 <= i < |p.series| && p.series[i].kind == k)
      && (forall m :: m in p.axis ==> MonthIn(m, w))
      && p.axis != {}
      && MonthStart(Least(p.axis)) == Some(p.first) && MonthStart(Greatest(p.axis)) == Some(p.last)
      && ((forall m :: m in p.axis ==> TwoDigitMonth(m)) ==> forall m :: m in p.axis ==> OnRange(m, p.first, p.last))
  {
    PlottedFrom(cs, flags, w);
    var md := Aggregated(NoActivity, cs, flags, w).value;
    var axis := AxisOf(md, flags, Kinds);
    SeriesHoldExpected(cs, flags, w, md);
    forall k, m | Shows(flags, k) && ContributorsAt(cs, k, m, flags, w) != {}
      ensures m in axis
      ensures exists i :: 0 <= i < |SeriesOf(md, flags, Kinds)| && SeriesOf(md, flags, Kinds)[i].kind == k
    {
      CountedIsDrawn(cs, flags, w, md, k, m);
    }
    forall m | m in axis
      ensures MonthIn(m, w)
    {
      AxisInWindow(cs, flags, w, md, m);
    }
    if forall m :: m in axis ==> TwoDigitMonth(m) {
      forall m | m in axis
        ensures OnRange(m, MonthStart(Least(axis)).value, MonthStart(Greatest(axis)).value)
      {
        TwoDigitMonthsOnRange(axis, m);
      }
    }
  }

  /** Reading the first day of `min(all_months)` and `max(all_months)` never raises: every key parsed when it was bucketed. */
  lemma TrendRangeParses(cs: Dict<string, ContributorData>, flags: Flags, w: Window)
    requires TrendOutcome(cs, flags, w).Failure?
    ensures Aggregated(NoActivity, cs, flags, w).Failure?
    ensures TrendOutcome(cs, flags, w).error == Aggregated(NoActivity, cs, flags, w).error
  {
    if Aggregated(NoActivity, cs, flags, w).Success? {
      var md := Aggregated(NoActivity, cs, flags, w).value;
      var axis := AxisOf(md, flags, Kinds);
      AxisInWindow(cs, flags, w, md, Least(axis));
      AxisInWindow(cs, flags, w, md, Greatest(axis));
    }
  }

  // ---------------------------------------------------------------- plot_open_prs_trend

  /** A type's daily open-PR counts, keyed by `YYYY-MM-DD`. */
  type DailyCounts = Dict<string, int>

  /** The skip test of the date-collection loop: any of the three types can be hidden; other types never are. */
  predicate HiddenType(t: string, flags: Flags)
  {
    Hidden(t, flags) || (t == "unknown" && !flags.showUnknown)
  }

  /** `has_*_data`: the type is present, has dates, and is shown. */
  predicate HasPrData(data: Dict<string, DailyCounts>, k: Kind, flags: Flags)
  {
    Get(data, Key(k)).Some? && Get(data, Key(k)).value != [] && Shows(flags, k)
  }

  /** `all_dates` after the loop over `data`: the set's elements in the order they are met (repeats allowed). */
  function AllDates(data: Dict<string, DailyCounts>, flags: Flags): seq<string>
  {
    if data == [] then []
    else
      var prev := AllDates(data[..|data| - 1], flags);
      var last := data[|data| - 1];
      if HiddenType(last.0, flags) then prev else prev + Keys(last.1)
  }

  /**
   * `date_objects`: every collected date parsed, failing at the first one that does not parse.
   * The source iterates a `set`, whose order Python does not fix, so which unparseable date is
   * reported is an arbitrary choice; the model takes the first in collection order.
   */
  function ParseAll(ds: seq<string>): (r: Result<seq<Date>, Error>)
    ensures r.Success? ==> |r.value| == |ds| && forall i :: 0 <= i < |ds| ==> ParseDate(ds[i]) == Some(r.value[i])
    ensures r.Failure? ==> exists i :: 0 <= i < |ds| && ParseDate(ds[i]).None? && r.error == UnparseableDate(ds[i])
  {
    if ds == [] then Success([])
    else match ParseDate(ds[0])
      case None => Failure(UnparseableDate(ds[0]))
      case Some(d) =>
        match ParseAll(ds[1..])
        case Failure(e) => Failure(e)
        case Success(rest) => Success([d] + rest)
  }

  /** `min(date_objects)`. */
  function Earliest(ds: seq<Date>): (r: Date)
    requires ds != []
    ensures r in ds && forall i :: 0 <= i < |ds| ==> Ordinal(r) <= Ordinal(ds[i])
  {
    if |ds| == 1 then ds[0]
    else
      var m := Earliest(ds[..|ds| - 1]);
      assert forall i :: 0 <= i < |ds| - 1 ==> ds[..|ds| - 1][i] == ds[i];
      if Ordinal(ds[|ds| - 1]) < Ordinal(m) then ds[|ds| - 1] else m
  }

  /** `max(date_objects)`. */
  function Latest(ds: seq<Date>): (r: Date)
    requires ds != []
    ensures r in ds && forall i :: 0 <= i < |ds| ==> Ordinal(ds[i]) <= Ordinal(r)
  {
    if |ds| == 1 then ds[0]
    else
      var m := Latest(ds[..|ds| - 1]);
      assert forall i :: 0 <= i < |ds| - 1 ==> ds[..|ds| - 1][i] == ds[i];
      if Ordinal(m) < Ordinal(ds[|ds| - 1]) then ds[|ds| - 1] else m
  }

  /** `max(min_date, start_date)` when a start is given. */
  function ClampStart(lo: Date, start: Option<Date>): Date
  {
    if start.Some? && Ordinal(lo) < Ordinal(start.value) then start.value else lo
  }

  /** `min(max_date, end_date)` when an end is given. */
  function ClampEnd(hi: Date, end: Option<Date>): Date
  {
    if end.Some? && Ordinal(end.value) < Ordinal(hi) then end.value else hi
  }

  /** The source's filter on one date: at or after `start_date`, and at or before the clamped `max_date`. */
  predicate Kept(date: string, start: Option<Date>, bounded: bool, last: Date)
  {
    && (start.None? || (ParseDate(date).Some? && Ordinal(ParseDate(date).value) >= Ordinal(start.value)))
    && (!bounded || (ParseDate(date).Some? && Ordinal(ParseDate(date).value) <= Ordinal(last)))
  }

  /** `filtered_data`. */
  function Filtered(counts: DailyCounts, start: Option<Date>, bounded: bool, last: Date): DailyCounts
  {
    if counts == [] then []
    else
      var prev := Filtered(counts[..|counts| - 1], start, bounded, last);
      if Kept(counts[|counts| - 1].0, start, bounded, last) then prev + [counts[|counts| - 1]] else prev
  }

  /** A drawn open-PR line: a type and the counts it plots. */
  datatype PrLine = PrLine(kind: Kind, counts: DailyCounts)

  /** The lines drawn after the drawing loop has visited `ks`. */
  function Lines(data: Dict<string, DailyCounts>, flags: Flags, start: Option<Date>, bounded: bool, last: Date, ks: seq<Kind>): seq<PrLine>
  {
    if ks == [] then []
    else
      var prev := Lines(data, flags, start, bounded, last, ks[..|ks| - 1]);
      var k := ks[|ks| - 1];
      if Shows(flags, k) && Get(data, Key(k)).Some? && Get(data, Key(k)).value != []
         && Filtered(Get(data, Key(k)).value, start, bounded, last) != []
      then prev + [PrLine(k, Filtered(Get(data, Key(k)).value, start, bounded, last))]
      else prev
  }

  function PrTitle(flags: Flags): string
  {
    var parts := TitleParts(flags);
    if |parts| > 1 then "Open Pull Requests by Contributor Type"
    else if |parts| == 1 then "Open Pull Requests from " + parts[0] + " Contributors"
    else "Open Pull Requests"
  }

  /** The open-PR title: generic for several shown types, naming the one shown type, bare for none. */
  lemma PrTitleCases(flags: Flags)
    ensures ShownCount(flags) >= 2 ==> PrTitle(flags) == "Open Pull Requests by Contributor Type"
    ensures forall k :: ShownCount(flags) == 1 && Shows(flags, k) ==>
      PrTitle(flags) == "Open Pull Requests from " + Label(k) + " Contributors"
    ensures ShownCount(flags) == 0 ==> PrTitle(flags) == "Open Pull Requests"
  {
    TitlePartsMeaning(flags);
  }

  /** The outcome of `plot_open_prs_trend`: an early exit, or the clamped axis range and the lines drawn. */
  datatype PrChart = NoPrData | NoPrDataAfterFiltering | NoPrDataInRange
                   | PrPlotted(title: string, first: Date, last: Date, lines: seq<PrLine>)

  function OpenPrOutcome(data: Dict<string, DailyCounts>, flags: Flags, w: Window): Result<PrChart, Error>
  {
    if data == [] then Success(NoPrData)
    else if !(HasPrData(data, Internal, flags) || HasPrData(data, External, flags) || HasPrData(data, Unknown, flags)) then
      Success(NoPrDataAfterFiltering)
    else match ParseAll(AllDates(data, flags))
      case Failure(e) => Failure(e)
      case Success(parsed) =>
        if parsed == [] then Success(NoPrDataInRange)
        else
          var first := ClampStart(Earliest(parsed), w.start);
          var last := ClampEnd(Latest(parsed), w.end);
          Success(PrPlotted(PrTitle(flags), first, last, Lines(data, flags, w.start, w.end.Some?, last, Kinds)))
  }

  /** The loop collecting `all_dates` from every type not hidden. */
  method CollectDates(data: Dict<string, DailyCounts>, flags: Flags) returns (allDates: seq<string>)
    ensures allDates == AllDates(data, flags)
  {
    allDates := [];
    for i := 0 to |data|
      invariant allDates == AllDates(data[..i], flags)
    {
      assert data[..i + 1][..i] == data[..i];
      if HiddenType(data[i].0, flags) {
        continue;
      }
      allDates := allDates + Keys(data[i].1);
    }
    assert data[..|data|] == data;
  }

  /** The drawing loop: one line per shown type whose filtered counts are not empty. */
  method DrawLines(data: Dict<string, DailyCounts>, flags: Flags, start: Option<Date>, bounded: bool, last: Date)
    returns (lines: seq<PrLine>)
    ensures lines == Lines(data, flags, start, bounded, last, Kinds)
  {
    lines := [];
    for t := 0 to |Kinds|
      invariant lines == Lines(data, flags, start, bounded, last, Kinds[..t])
    {
      var k := Kinds[t];
      assert Kinds[..t + 1][..t] == Kinds[..t];
      if !Shows(flags, k) || Get(data, Key(k)).None? || Get(data, Key(k)).value == [] {
        continue;
      }
      var filtered := Filtered(Get(data, Key(k)).value, start, bounded, last);
      if filtered == [] {
        continue;
      }
      lines := lines + [PrLine(k, filtered)];
    }
    assert Kinds[..|Kinds|] == Kinds;
  }

  method PlotOpenPrsTrend(data: Dict<string, DailyCounts>, flags: Flags, w: Window) returns (r: Result<PrChart, Error>)
    ensures r == OpenPrOutcome(data, flags, w)
  {
    if data == [] {
      return Success(NoPrData);
    }
    if !(HasPrData(data, Internal, flags) || HasPrData(data, External, flags) || HasPrData(data, Unknown, flags)) {
      return Success(NoPrDataAfterFiltering);
    }
    var allDates := CollectDates(data, flags);
    var parsed := ParseAll(allDates);
    if parsed.Failure? {
      return Failure(parsed.error);
    }
    if parsed.value == [] {
      return Success(NoPrDataInRange);
    }
    var first := Earliest(parsed.value);
    var last := Latest(parsed.value);
    if w.start.Some? && Ordinal(first) < Ordinal(w.start.value) {
      first := w.start.value;
    }
    if w.end.Some? && Ordinal(w.end.value) < Ordinal(last) {
      last := w.end.value;
    }
    var lines := DrawLines(data, flags, w.start, w.end.Some?, last);
    return Success(PrPlotted(PrTitle(flags), first, last, lines));
  }

  // ---------------------------------------------------------------- what the open-PR chart promises

  /** The counts of a type whose dates parse and fall inside the window, in order. */
  function InWindowCounts(counts: DailyCounts, w: Window): (r: DailyCounts)
    ensures forall p :: p in r ==> p in counts && ParseDate(p.0).Some? && InWindow(ParseDate(p.0).value, w)
  {
    if counts == [] then []
    else
      var prev := InWindowCounts(counts[..|counts| - 1], w);
      var p := counts[|counts| - 1];
      if ParseDate(p.0).Some? && InWindow(ParseDate(p.0).value, w) then prev + [p] else prev
  }

  /** The lines the source means to draw: each shown type's counts inside the window, when there are any. */
  function WindowLines(data: Dict<string, DailyCounts>, flags: Flags, w: Window, ks: seq<Kind>): (r: seq<PrLine>)
    ensures forall i :: 0 <= i < |r| ==> Shows(flags, r[i].kind) && r[i].kind in ks
  {
    if ks == [] then []
    else
      var prev := WindowLines(data, flags, w, ks[..|ks| - 1]);
      var k := ks[|ks| - 1];
      if Shows(flags, k) && Get(data, Key(k)).Some? && InWindowCounts(Get(data, Key(k)).value, w) != []
      then prev + [PrLine(k, InWindowCounts(Get(data, Key(k)).value, w))]
      else prev
  }

  /** Every date of a visible entry is among the collected dates. */
  lemma {:induction false} AllDatesCover(data: Dict<string, DailyCounts>, flags: Flags, i: nat, date: string)
    requires i < |data| && !HiddenType(data[i].0, flags) && date in Keys(data[i].1)
    ensures date in AllDates(data, flags)
  {
    if i < |data| - 1 {
      AllDatesCover(data[..|data| - 1], flags, i, date);
    }
  }

  /** Every date of `counts` parses to a day between `lo` and `hi`. */
  predicate DatesWithin(counts: DailyCounts, lo: Date, hi: Date)
  {
    forall j :: 0 <= j < |counts| ==>
      ParseDate(counts[j].0).Some? && Ordinal(lo) <= Ordinal(ParseDate(counts[j].0).value) <= Ordinal(hi)
  }

  /** With every date parsed and no later than the latest, clamping the end to the latest changes nothing. */
  lemma {:induction false} ClampedFilterIsWindow(counts: DailyCounts, w: Window, lo: Date, hi: Date)
    requires DatesWithin(counts, lo, hi)
    ensures Filtered(counts, w.start, w.end.Some?, ClampEnd(hi, w.end)) == InWindowCounts(counts, w)
  {
    if counts != [] {
      var prefix := counts[..|counts| - 1];
      assert forall j :: 0 <= j < |prefix| ==> prefix[j] == counts[j];
      ClampedFilterIsWindow(prefix, w, lo, hi);
    }
  }

  /** The dates of a shown type all parse and lie between the earliest and the latest collected date. */
  lemma ShownDatesBounded(data: Dict<string, DailyCounts>, flags: Flags, k: Kind, parsed: seq<Date>)
    requires Shows(flags, k) && Get(data, Key(k)).Some?
    requires ParseAll(AllDates(data, flags)) == Success(parsed) && parsed != []
    ensures DatesWithin(Get(data, Key(k)).value, Earliest(parsed), Latest(parsed))
  {
    var counts := Get(data, Key(k)).value;
    var i := GetFound(data, Key(k));
    var all := AllDates(data, flags);
    forall j | 0 <= j < |counts|
      ensures ParseDate(counts[j].0).Some?
      ensures Ordinal(Earliest(parsed)) <= Ordinal(ParseDate(counts[j].0).value) <= Ordinal(Latest(parsed))
    {
      assert Keys(counts)[j] == counts[j].0;
      AllDatesCover(data, flags, i, counts[j].0);
      var n :| 0 <= n < |all| && all[n] == counts[j].0;
      assert ParseDate(all[n]) == Some(parsed[n]);
    }
  }

  /** The drawing loop's lines are the shown types' counts inside the window. */
  lemma {:induction false} LinesAreWindowLines(data: Dict<string, DailyCounts>, flags: Flags, w: Window, parsed: seq<Date>, ks: seq<Kind>)
    requires ParseAll(AllDates(data, flags)) == Success(parsed) && parsed != []
    ensures Lines(data, flags, w.start, w.end.Some?, ClampEnd(Latest(parsed), w.end), ks) == WindowLines(data, flags, w, ks)
  {
    if ks != [] {
      var k := ks[|ks| - 1];
      LinesAreWindowLines(data, flags, w, parsed, ks[..|ks| - 1]);
      if Shows(flags, k) && Get(data, Key(k)).Some? {
        ShownDatesBounded(data, flags, k, parsed);
        ClampedFilterIsWindow(Get(data, Key(k)).value, w, Earliest(parsed), Latest(parsed));
        if Get(data, Key(k)).value == [] {
          assert InWindowCounts(Get(data, Key(k)).value, w) == [];
        }
      }
    }
  }

  /** A count kept inside the window lies on the clamped axis. */
  lemma WindowCountOnAxis(counts: DailyCounts, w: Window, lo: Date, hi: Date, c: (string, int))
    requires DatesWithin(counts, lo, hi) && c in InWindowCounts(counts, w)
    ensures ParseDate(c.0).Some?
    ensures Ordinal(ClampStart(lo, w.start)) <= Ordinal(ParseDate(c.0).value) <= Ordinal(ClampEnd(hi, w.end))
  {
    var j :| 0 <= j < |counts| && counts[j] == c;
  }

  /** The "no data in selected date range" exit is never taken: a shown type with data contributes dates. */
  lemma OpenPrRangeNeverEmpty(data: Dict<string, DailyCounts>, flags: Flags, w: Window)
    ensures OpenPrOutcome(data, flags, w) != Success(NoPrDataInRange)
  {
    if data != [] && (HasPrData(data, Internal, flags) || HasPrData(data, External, flags) || HasPrData(data, Unknown, flags)) {
      var k := if HasPrData(data, Internal, flags) then Internal else if HasPrData(data, External, flags) then External else Unknown;
      var counts := Get(data, Key(k)).value;
      var i := GetFound(data, Key(k));
      assert Keys(counts)[0] == counts[0].0;
      AllDatesCover(data, flags, i, counts[0].0);
    }
  }

  /**
   * What the open-PR chart draws: the source's title; the axis starts no earlier than
   * `start_date` and ends no later than `end_date`; each line is a shown type's counts
   * inside the window, so bounding by the clamped `max_date` is bounding by `end_date`; and
   * every plotted date lies on the axis.
   */
  lemma OpenPrPlotted(data: Dict<string, DailyCounts>, flags: Flags, w: Window)
    requires OpenPrOutcome(data, flags, w).Success? && OpenPrOutcome(data, flags, w).value.PrPlotted?
    ensures var p := OpenPrOutcome(data, flags, w).value;
      && p.title == PrTitle(flags)
      && (w.start.Some? ==> Ordinal(w.start.value) <= Ordinal(p.first))
      && (w.end.Some? ==> Ordinal(p.last) <= Ordinal(w.end.value))
      && p.lines == WindowLines(data, flags, w, Kinds)
      && (forall i, c :: 0 <= i < |p.lines| && c in p.lines[i].counts ==>
            ParseDate(c.0).Some? && Ordinal(p.first) <= Ordinal(ParseDate(c.0).value) <= Ordinal(p.last))
  {
    var parsed := ParseAll(AllDates(data, flags)).value;
    assert OpenPrOutcome(data, flags, w).value ==
      PrPlotted(PrTitle(flags), ClampStart(Earliest(parsed), w.start), ClampEnd(Latest(parsed), w.end),
                Lines(data, flags, w.start, w.end.Some?, ClampEnd(Latest(parsed), w.end), Kinds));
    LinesAreWindowLines(data, flags, w, parsed, Kinds);
    var lines := WindowLines(data, flags, w, Kinds);
    forall i, c | 0 <= i < |lines| && c in lines[i].counts
      ensures ParseDate(c.0).Some?
      ensures Ordinal(ClampStart(Earliest(parsed), w.start)) <= Ordinal(ParseDate(c.0).value) <= Ordinal(ClampEnd(Latest(parsed), w.end))
    {
      var k := lines[i].kind;
      WindowLinesFrom(data, flags, w, Kinds, i);
      ShownDatesBounded(data, flags, k, parsed);
      WindowCountOnAxis(Get(data, Key(k)).value, w, Earliest(parsed), Latest(parsed), c);
    }
  }

  /** Each window line holds the in-window counts of a shown type present in the data. */
  lemma {:induction false} WindowLinesFrom(data: Dict<string, DailyCounts>, flags: Flags, w: Window, ks: seq<Kind>, i: nat)
    requires i < |WindowLines(data, flags, w, ks)|
    ensures var line := WindowLines(data, flags, w, ks)[i];
      Shows(flags, line.kind) && Get(data, Key(line.kind)).Some? && line.counts == InWindowCounts(Get(data, Key(line.kind)).value, w)
  {
    var prev := WindowLines(data, flags, w, ks[..|ks| - 1]);
    if i < |prev| {
      WindowLinesFrom(data, flags, w, ks[..|ks| - 1], i);
    }
  }
}
