/**
 * external_contributors.py: which contributors of a repository belong to none of the
 * filter organizations, and how many pull requests each of them opened per month.
 *
 * Organization rosters come from the network; here the answers are the map `roster`
 * (organization name to the list `get_org_members` builds from its pages), and
 * `OrgDirectory` is the memo dict the script threads through its calls, together with a
 * log of the organizations whose rosters were fetched and stored.
 */
module ExternalContributors {
  import opened Common
  import opened Records
  import opened OrderedDict
  import opened Tallies
  import opened Calendar
  import opened GitHubCache

  // ---------------------------------------------------------------- classification

  /**
   * One element of the list `get_org_members` extends page by page: a member record, whose
   * "login" may be missing, or, where a page was an error object instead of a list, one of
   * that object's keys.
   */
  datatype MemberEntry = MemberRecord(login: Option<string>) | ObjectKey(key: string)

  /** What the member pages of each organization add up to. */
  type Rosters = map<string, seq<MemberEntry>>

  /**
   * `[member["login"] for member in members]`: every login in order, or the error of the
   * first entry that has none.
   */
  function Logins(members: seq<MemberEntry>): (r: Result<seq<string>, Error>)
    ensures r.Success? <==> forall i :: 0 <= i < |members| ==> members[i].MemberRecord? && members[i].login.Some?
    ensures r.Success? ==> |r.value| == |members| && forall i :: 0 <= i < |members| ==> r.value[i] == members[i].login.value
    ensures r.Failure? ==> r.error == MissingKey("login") || r.error.NotARecord?
  {
    if members == [] then Success([])
    else
      match members[0]
      case ObjectKey(k) => Failure(NotARecord(k))
      case MemberRecord(None) => Failure(MissingKey("login"))
      case MemberRecord(Some(l)) =>
        var rest := Logins(members[1..]);
        if rest.Failure? then rest else Success([l] + rest.value)
  }

  /** The member logins of `org`, or what their comprehension raises; an organization the map does not know lists nobody. */
  function Roster(rosters: Rosters, org: string): Result<seq<string>, Error>
  {
    if org in rosters then Logins(rosters[org]) else Success([])
  }

  /** Whether the loop of `is_external_contributor` ends at an organization with this roster. */
  predicate Stops(username: string, r: Result<seq<string>, Error>)
  {
    r.Failure? || username in r.value
  }

  /** Every organization before the `k`-th has a readable roster that does not list `username`. */
  predicate ClearBefore(username: string, filterOrgs: seq<string>, roster: Rosters, k: nat)
    requires k <= |filterOrgs|
  {
    forall j :: 0 <= j < k ==> Roster(roster, filterOrgs[j]).Success? && username !in Roster(roster, filterOrgs[j]).value
  }

  /** Every filter organization's roster reads, and none lists the user. */
  predicate External(username: string, filterOrgs: seq<string>, roster: Rosters)
  {
    ClearBefore(username, filterOrgs, roster, |filterOrgs|)
  }

  /** Where the loop ends: the first filter organization whose roster raises or lists `username`, or `|filterOrgs|`. */
  function StopAt(username: string, filterOrgs: seq<string>, roster: Rosters): (k: nat)
    ensures k <= |filterOrgs|
    ensures ClearBefore(username, filterOrgs, roster, k)
    ensures k < |filterOrgs| ==> Stops(username, Roster(roster, filterOrgs[k]))
  {
    if filterOrgs == [] then 0
    else if Stops(username, Roster(roster, filterOrgs[0])) then 0
    else 1 + StopAt(username, filterOrgs[1..], roster)
  }

  /** What `is_external_contributor` returns, or the error it raises. */
  function Judged(username: string, filterOrgs: seq<string>, roster: Rosters): Result<bool, Error>
  {
    var k := StopAt(username, filterOrgs, roster);
    if k == |filterOrgs| then Success(true)
    else match Roster(roster, filterOrgs[k])
      case Failure(e) => Failure(e)
      case Success(_) => Success(false)
  }

  /** The organizations whose rosters the loop leaves memoised: those read before it ends, and the one it ends at when that one reads. */
  function Memoised(username: string, filterOrgs: seq<string>, roster: Rosters): seq<string>
  {
    var k := StopAt(username, filterOrgs, roster);
    if k < |filterOrgs| && Roster(roster, filterOrgs[k]).Success? then filterOrgs[..k + 1] else filterOrgs[..k]
  }

  /**
   * The user is external exactly when every roster reads and none lists them; internal
   * exactly when some organization lists them and all before it read; and the call raises
   * exactly when some roster raises before any lists them, with that roster's error.
   */
  lemma JudgedMeaning(username: string, filterOrgs: seq<string>, roster: Rosters)
    ensures Judged(username, filterOrgs, roster) == Success(true) <==> External(username, filterOrgs, roster)
    ensures Judged(username, filterOrgs, roster) == Success(false) <==>
      exists k :: 0 <= k < |filterOrgs| && ClearBefore(username, filterOrgs, roster, k)
        && Roster(roster, filterOrgs[k]).Success? && username in Roster(roster, filterOrgs[k]).value
    ensures Judged(username, filterOrgs, roster).Failure? <==>
      exists k :: 0 <= k < |filterOrgs| && ClearBefore(username, filterOrgs, roster, k)
        && Roster(roster, filterOrgs[k]).Failure?
    ensures Judged(username, filterOrgs, roster).Failure? ==>
      exists org :: org in filterOrgs && Roster(roster, org) == Failure(Judged(username, filterOrgs, roster).error)
  {
    var first := StopAt(username, filterOrgs, roster);
    assert forall k :: (0 <= k < |filterOrgs| && ClearBefore(username, filterOrgs, roster, k)
                        && Stops(username, Roster(roster, filterOrgs[k]))) ==> k == first;
    if first < |filterOrgs| {
      assert filterOrgs[first] in filterOrgs;
    }
    if first < |filterOrgs| {
      assert !ClearBefore(username, filterOrgs, roster, |filterOrgs|) by {
        assert !(Roster(roster, filterOrgs[first]).Success? && username !in Roster(roster, filterOrgs[first]).value);
      }
    }
  }

  predicate Distinct(s: seq<string>)
  {
    forall i, j :: 0 <= i < j < |s| ==> s[i] != s[j]
  }

  /** `org_members_cache`, with the organizations whose rosters were fetched and stored, in order. */
  class OrgDirectory {
    const roster: Rosters
    var memo: map<string, seq<string>>
    var fetched: seq<string>

    /** The memo holds exactly the stored rosters, each as read, and no organization was stored twice. */
    ghost predicate Valid()
      reads this
    {
      && (forall org :: org in memo <==> org in fetched)
      && (forall org :: org in memo ==> Roster(roster, org) == Success(memo[org]))
      && Distinct(fetched)
    }

    constructor (roster: Rosters)
      ensures Valid()
      ensures this.roster == roster && memo == map[] && fetched == []
    {
      this.roster := roster;
      memo := map[];
      fetched := [];
    }

    /**
     * `get_org_members`: the memoised roster, or on a miss the fetched one, stored only
     * when its comprehension does not raise.
     */
    method GetOrgMembers(org: string) returns (members: Result<seq<string>, Error>)
      requires Valid()
      modifies this
      ensures Valid()
      ensures members == Roster(roster, org)
      ensures org in old(memo) ==> memo == old(memo) && fetched == old(fetched)
      ensures org !in old(memo) && members.Success? ==>
        memo == old(memo)[org := members.value] && fetched == old(fetched) + [org]
      ensures members.Failure? ==> memo == old(memo) && fetched == old(fetched)
    {
      if org in memo {
        return Success(memo[org]);
      }
      var listed := if org in roster then roster[org] else [];
      var logins := Logins(listed);
      if logins.Failure? {
        return logins;
      }
      memo := memo[org := logins.value];
      fetched := fetched + [org];
      members := logins;
    }

    /**
     * `is_external_contributor`: false at the first filter organization listing the user,
     * raising at the first whose roster raises before that; the memo grows by exactly the
     * rosters read on the way.
     */
    method IsExternalContributor(username: string, filterOrgs: seq<string>) returns (external: Result<bool, Error>)
      requires Valid()
      modifies this
      ensures Valid()
      ensures external == Judged(username, filterOrgs, roster)
      ensures forall org :: org in memo <==> org in old(memo) || org in Memoised(username, filterOrgs, roster)
      ensures old(fetched) <= fetched
    {
      ghost var memo0 := memo;
      ghost var log := fetched;
      ghost var first := StopAt(username, filterOrgs, roster);
      var i := 0;
      while i < |filterOrgs|
        invariant i <= first
        invariant Valid()
        invariant forall org :: org in memo <==> org in memo0 || org in filterOrgs[..i]
        invariant log <= fetched
      {
        ghost var before := memo.Keys;
        var members := GetOrgMembers(filterOrgs[i]);
        if members.Failure? {
          StoppedAt(username, filterOrgs, roster, i);
          return Failure(members.error);
        }
        ConsultOneMore(memo0.Keys, before, memo.Keys, filterOrgs, i);
        if username in members.value {
          StoppedAt(username, filterOrgs, roster, i);
          return Success(false);
        }
        i := i + 1;
      }
      ConsultedAll(username, filterOrgs, roster);
      external := Success(true);
    }
  }

  /** Memoising the roster of `s[i]` extends the organizations memoised since `start` to `s[..i + 1]`. */
  lemma ConsultOneMore(start: set<string>, before: set<string>, after: set<string>, s: seq<string>, i: nat)
    requires i < |s|
    requires forall o :: o in before <==> o in start || o in s[..i]
    requires forall o :: o in after <==> o in before || o == s[i]
    ensures forall o :: o in after <==> o in start || o in s[..i + 1]
  {
    assert s[..i + 1] == s[..i] + [s[i]];
  }

  /** Ending at the `i`-th organization: the answer is its roster's error or `False`. */
  lemma StoppedAt(username: string, filterOrgs: seq<string>, roster: Rosters, i: nat)
    requires i < |filterOrgs| && i <= StopAt(username, filterOrgs, roster)
    requires Stops(username, Roster(roster, filterOrgs[i]))
    ensures StopAt(username, filterOrgs, roster) == i
    ensures Roster(roster, filterOrgs[i]).Failure? ==>
      && Judged(username, filterOrgs, roster) == Failure(Roster(roster, filterOrgs[i]).error)
      && Memoised(username, filterOrgs, roster) == filterOrgs[..i]
    ensures Roster(roster, filterOrgs[i]).Success? ==>
      && Judged(username, filterOrgs, roster) == Success(false)
      && Memoised(username, filterOrgs, roster) == filterOrgs[..i + 1]
  {
  }

  /** Running through every organization without stopping memoises them all: the user is external. */
  lemma ConsultedAll(username: string, filterOrgs: seq<string>, roster: Rosters)
    requires StopAt(username, filterOrgs, roster) == |filterOrgs|
    ensures Memoised(username, filterOrgs, roster) == filterOrgs
    ensures filterOrgs[..|filterOrgs|] == filterOrgs
    ensures Judged(username, filterOrgs, roster) == Success(true)
  {
  }

  // ---------------------------------------------------------------- aggregation

  /** `{"prs": ..., "months": {...}}` for one external contributor. */
  datatype Activity = Activity(prs: int, months: Dict<string, int>)

  /**
   * The `external_contributors` dict: its keys in insertion order, and what each maps to.
   * `Store` is `d[k] = v`: a new key goes to the end, a present one keeps its place.
   */
  datatype Table = Table(order: seq<string>, rows: map<string, Activity>)

  predicate WellFormed(t: Table)
  {
    && Distinct(t.order)
    && (forall u :: u in t.rows ==> u in t.order)
    && (forall u :: u in t.order ==> u in t.rows)
  }

  function Store(t: Table, username: string, a: Activity): (r: Table)
    ensures WellFormed(t) ==> WellFormed(r)
  {
    Table(if username in t.rows then t.order else t.order + [username], t.rows[username := a])
  }

  /** `pr["user"]["login"]`: either key may be missing. */
  datatype Author = MissingUser | MissingLogin | Login(name: string)

  datatype PullRequest = PullRequest(author: Author, createdAt: Option<string>)

  /** The first loop: an entry `{prs: 0, months: {}}` for every contributor judged external. */
  function Registered(contributors: seq<Record>, filterOrgs: seq<string>, roster: Rosters)
    : Result<Table, Error>
  {
    if contributors == [] then Success(Table([], map[]))
    else
      var prior := Registered(contributors[..|contributors| - 1], filterOrgs, roster);
      var c := contributors[|contributors| - 1];
      if prior.Failure? then prior
      else if c.login.None? then Failure(MissingKey("login"))
      else match Judged(c.login.value, filterOrgs, roster)
        case Failure(e) => Failure(e)
        case Success(true) => Success(Store(prior.value, c.login.value, Activity(0, [])))
        case Success(false) => prior
  }

  /**
   * One turn of the second loop. `bucket` is the month key of a `created_at` string, `None`
   * where `strptime` raises; the script's is `MonthKey`.
   */
  function CountPull(t: Table, pr: PullRequest, bucket: string -> Option<string>): Result<Table, Error>
  {
    match pr.author
    case MissingUser => Failure(MissingKey("user"))
    case MissingLogin => Failure(MissingKey("login"))
    case Login(u) =>
      if u !in t.rows then Success(t)
      else if pr.createdAt.None? then Failure(MissingKey("created_at"))
      else match bucket(pr.createdAt.value)
        case None => Failure(UnparseableDate(pr.createdAt.value))
        case Some(month) => Success(Store(t, u, Activity(t.rows[u].prs + 1, Bump(t.rows[u].months, month))))
  }

  /** The second loop over the repository's pull requests, starting from `base`. */
  function Counted(prs: seq<PullRequest>, base: Table, bucket: string -> Option<string>): Result<Table, Error>
  {
    if prs == [] then Success(base)
    else
      var prior := Counted(prs[..|prs| - 1], base, bucket);
      if prior.Failure? then prior else CountPull(prior.value, prs[|prs| - 1], bucket)
  }

  /** What `get_external_contributors` returns (or raises). */
  function Aggregate(contributors: seq<Record>, filterOrgs: seq<string>, roster: Rosters,
                     prs: seq<PullRequest>): Result<Table, Error>
  {
    var registered := Registered(contributors, filterOrgs, roster);
    if registered.Failure? then registered else Counted(prs, registered.value, MonthKey)
  }

  /** The month buckets of `username`'s pull requests, in order. */
  function MonthsBy(prs: seq<PullRequest>, username: string, bucket: string -> Option<string>): seq<string>
  {
    if prs == [] then []
    else
      var pr := prs[|prs| - 1];
      var prior := MonthsBy(prs[..|prs| - 1], username, bucket);
      if pr.author == Login(username) && pr.createdAt.Some? && bucket(pr.createdAt.value).Some?
      then prior + [bucket(pr.createdAt.value).value]
      else prior
  }

  lemma {:induction false} RegisteredFailurePersists(contributors: seq<Record>, k: nat, filterOrgs: seq<string>,
                                                     roster: Rosters)
    requires k <= |contributors|
    requires Registered(contributors[..k], filterOrgs, roster).Failure?
    ensures Registered(contributors, filterOrgs, roster) == Registered(contributors[..k], filterOrgs, roster)
  {
    if k < |contributors| {
      var prefix := contributors[..|contributors| - 1];
      assert prefix[..k] == contributors[..k];
      RegisteredFailurePersists(prefix, k, filterOrgs, roster);
    } else {
      assert contributors[..k] == contributors;
    }
  }

  lemma {:induction false} CountedFailurePersists(prs: seq<PullRequest>, k: nat, base: Table,
                                                  bucket: string -> Option<string>)
    requires k <= |prs|
    requires Counted(prs[..k], base, bucket).Failure?
    ensures Counted(prs, base, bucket) == Counted(prs[..k], base, bucket)
  {
    if k < |prs| {
      var prefix := prs[..|prs| - 1];
      assert prefix[..k] == prs[..k];
      CountedFailurePersists(prefix, k, base, bucket);
    } else {
      assert prs[..k] == prs;
    }
  }

  /** `get_external_contributors`, with the memo dict it creates. */
  method GetExternalContributors(contributors: seq<Record>, filterOrgs: seq<string>, roster: Rosters,
                                 prs: seq<PullRequest>) returns (r: Result<Table, Error>)
    ensures r == Aggregate(contributors, filterOrgs, roster, prs)
  {
    var directory := new OrgDirectory(roster);
    var external := Table([], map[]);
    for i := 0 to |contributors|
      invariant directory.Valid() && directory.roster == roster
      invariant Registered(contributors[..i], filterOrgs, roster) == Success(external)
    {
      var c := contributors[i];
      assert contributors[..i + 1][..i] == contributors[..i];
      if c.login.None? {
        RegisteredFailurePersists(contributors, i + 1, filterOrgs, roster);
        return Failure(MissingKey("login"));
      }
      var isExternal := directory.IsExternalContributor(c.login.value, filterOrgs);
      if isExternal.Failure? {
        RegisteredFailurePersists(contributors, i + 1, filterOrgs, roster);
        return Failure(isExternal.error);
      }
      if isExternal.value {
        external := Store(external, c.login.value, Activity(0, []));
      }
    }
    assert contributors[..|contributors|] == contributors;
    r := CountPulls(prs, external);
  }

  /** The second loop of `get_external_contributors`, counting into the registered table `base`. */
  method CountPulls(prs: seq<PullRequest>, base: Table) returns (r: Result<Table, Error>)
    ensures r == Counted(prs, base, MonthKey)
  {
    var external := base;
    for j := 0 to |prs|
      invariant Counted(prs[..j], base, MonthKey) == Success(external)
    {
      var pr := prs[j];
      assert prs[..j + 1][..j] == prs[..j];
      var step := CountPull(external, pr, MonthKey);
      if step.Failure? {
        CountedFailurePersists(prs, j + 1, base, MonthKey);
        return step;
      }
      external := step.value;
    }
    assert prs[..|prs|] == prs;
    r := Success(external);
  }

  // ---------------------------------------------------------------- what the aggregation means

  /** A contributor the first loop raises at: no `login`, or a roster that raises while judging them. */
  predicate Unjudgeable(c: Record, filterOrgs: seq<string>, roster: Rosters)
  {
    c.login.None? || Judged(c.login.value, filterOrgs, roster).Failure?
  }

  /**
   * Registration fails exactly when some contributor has no `login` or some roster raises
   * while they are judged; the error is the `KeyError('login')` or that roster's error.
   */
  lemma {:induction false} RegisteredFails(contributors: seq<Record>, filterOrgs: seq<string>, roster: Rosters)
    ensures Registered(contributors, filterOrgs, roster).Failure? <==>
      exists i :: 0 <= i < |contributors| && Unjudgeable(contributors[i], filterOrgs, roster)
    ensures Registered(contributors, filterOrgs, roster).Failure? ==>
      || Registered(contributors, filterOrgs, roster).error == MissingKey("login")
      || exists org :: org in filterOrgs && Roster(roster, org) == Failure(Registered(contributors, filterOrgs, roster).error)
  {
    if contributors != [] {
      var prefix := contributors[..|contributors| - 1];
      var c := contributors[|contributors| - 1];
      RegisteredFails(prefix, filterOrgs, roster);
      UnjudgeableSnoc(contributors, filterOrgs, roster);
      if c.login.Some? {
        JudgedMeaning(c.login.value, filterOrgs, roster);
      }
    }
  }

  lemma UnjudgeableSnoc(contributors: seq<Record>, filterOrgs: seq<string>, roster: Rosters)
    requires contributors != []
    ensures var prefix := contributors[..|contributors| - 1];
      (exists i :: 0 <= i < |contributors| && Unjudgeable(contributors[i], filterOrgs, roster)) <==>
      || (exists i :: 0 <= i < |prefix| && Unjudgeable(prefix[i], filterOrgs, roster))
      || Unjudgeable(contributors[|contributors| - 1], filterOrgs, roster)
  {
    var prefix := contributors[..|contributors| - 1];
    if exists i :: 0 <= i < |contributors| && Unjudgeable(contributors[i], filterOrgs, roster) {
      var i :| 0 <= i < |contributors| && Unjudgeable(contributors[i], filterOrgs, roster);
      if i < |prefix| {
        assert prefix[i] == contributors[i];
      }
    }
  }

  predicate LoggedAs(contributors: seq<Record>, username: string)
  {
    exists i :: 0 <= i < |contributors| && contributors[i].login == Some(username)
  }

  /** The registered contributors are exactly the external logins, each at zero. */
  lemma {:induction false} RegisteredEntries(contributors: seq<Record>, filterOrgs: seq<string>,
                                             roster: Rosters)
    requires Registered(contributors, filterOrgs, roster).Success?
    ensures var t := Registered(contributors, filterOrgs, roster).value;
      && WellFormed(t)
      && (forall u :: u in t.rows ==> t.rows[u] == Activity(0, []))
      && (forall u :: u in t.rows ==> External(u, filterOrgs, roster) && LoggedAs(contributors, u))
      && (forall u :: External(u, filterOrgs, roster) && LoggedAs(contributors, u) ==> u in t.rows)
  {
    if contributors != [] {
      var prefix := contributors[..|contributors| - 1];
      var c := contributors[|contributors| - 1];
      RegisteredEntries(prefix, filterOrgs, roster);
      var p := Registered(prefix, filterOrgs, roster).value;
      JudgedMeaning(c.login.value, filterOrgs, roster);
      assert Registered(contributors, filterOrgs, roster).value ==
        if External(c.login.value, filterOrgs, roster) then Store(p, c.login.value, Activity(0, [])) else p;
      forall u ensures LoggedAs(contributors, u) <==> LoggedAs(prefix, u) || c.login == Some(u) {
        LoggedAsSnoc(contributors, u);
      }
    }
  }

  lemma LoggedAsSnoc(contributors: seq<Record>, u: string)
    requires contributors != []
    ensures LoggedAs(contributors, u) <==>
      LoggedAs(contributors[..|contributors| - 1], u) || contributors[|contributors| - 1].login == Some(u)
  {
    var prefix := contributors[..|contributors| - 1];
    if LoggedAs(prefix, u) {
      var i :| 0 <= i < |prefix| && prefix[i].login == Some(u);
      assert contributors[i] == prefix[i];
    }
    if LoggedAs(contributors, u) && contributors[|contributors| - 1].login != Some(u) {
      var i :| 0 <= i < |contributors| && contributors[i].login == Some(u);
      assert i < |prefix| && prefix[i] == contributors[i];
    }
  }

  /** What one successful turn of the second loop does. */
  lemma CountPullStep(t: Table, pr: PullRequest, bucket: string -> Option<string>)
    requires CountPull(t, pr, bucket).Success?
    ensures pr.author.Login?
    ensures pr.author.name !in t.rows ==> CountPull(t, pr, bucket) == Success(t)
    ensures pr.author.name in t.rows ==>
      && pr.createdAt.Some? && bucket(pr.createdAt.value).Some?
      && var a := t.rows[pr.author.name];
        CountPull(t, pr, bucket) ==
          Success(Store(t, pr.author.name, Activity(a.prs + 1, Bump(a.months, bucket(pr.createdAt.value).value))))
  {
  }

  /** A successful run of the second loop ran successfully on every prefix. */
  lemma CountedPrefix(prs: seq<PullRequest>, base: Table, bucket: string -> Option<string>)
    requires prs != [] && Counted(prs, base, bucket).Success?
    ensures Counted(prs[..|prs| - 1], base, bucket).Success?
    ensures Counted(prs, base, bucket) == CountPull(Counted(prs[..|prs| - 1], base, bucket).value, prs[|prs| - 1], bucket)
  {
  }

  /** Counting pull requests never adds, removes or reorders a contributor. */
  lemma {:induction false} CountedKeys(prs: seq<PullRequest>, base: Table, bucket: string -> Option<string>)
    requires Counted(prs, base, bucket).Success?
    ensures Counted(prs, base, bucket).value.order == base.order
    ensures Counted(prs, base, bucket).value.rows.Keys == base.rows.Keys
  {
    if prs != [] {
      var prefix := prs[..|prs| - 1];
      CountedPrefix(prs, base, bucket);
      CountedKeys(prefix, base, bucket);
      CountPullStep(Counted(prefix, base, bucket).value, prs[|prs| - 1], bucket);
    }
  }

  lemma MonthsBySnoc(prs: seq<PullRequest>, username: string, bucket: string -> Option<string>)
    requires prs != []
    ensures var pr := prs[|prs| - 1];
      MonthsBy(prs, username, bucket) ==
        if pr.author == Login(username) && pr.createdAt.Some? && bucket(pr.createdAt.value).Some?
        then MonthsBy(prs[..|prs| - 1], username, bucket) + [bucket(pr.createdAt.value).value]
        else MonthsBy(prs[..|prs| - 1], username, bucket)
  {
  }

  /** One pull request touches only its author's entry: one more PR, one more in its month. */
  lemma CountPullActivity(prior: Table, pr: PullRequest, username: string, bucket: string -> Option<string>)
    requires CountPull(prior, pr, bucket).Success? && username in prior.rows
    ensures username in CountPull(prior, pr, bucket).value.rows
    ensures pr.author == Login(username) ==>
      pr.createdAt.Some? && bucket(pr.createdAt.value).Some? &&
      CountPull(prior, pr, bucket).value.rows[username] ==
        Activity(prior.rows[username].prs + 1, Bump(prior.rows[username].months, bucket(pr.createdAt.value).value))
    ensures pr.author != Login(username) ==> CountPull(prior, pr, bucket).value.rows[username] == prior.rows[username]
  {
  }

  /**
   * A registered contributor ends with one PR per pull request they authored, bucketed by
   * the month it was created in; everybody else's pull requests leave them alone.
   */
  lemma {:induction false} CountedActivity(prs: seq<PullRequest>, base: Table, username: string,
                                           bucket: string -> Option<string>)
    requires Counted(prs, base, bucket).Success?
    requires username in base.rows && base.rows[username] == Activity(0, [])
    ensures username in Counted(prs, base, bucket).value.rows
    ensures Counted(prs, base, bucket).value.rows[username] ==
      Activity(|MonthsBy(prs, username, bucket)|, Tally(MonthsBy(prs, username, bucket)))
  {
    if prs != [] {
      var prefix := prs[..|prs| - 1];
      var pr := prs[|prs| - 1];
      CountedPrefix(prs, base, bucket);
      var prior := Counted(prefix, base, bucket).value;
      CountedActivity(prefix, base, username, bucket);
      var ms := MonthsBy(prefix, username, bucket);
      assert prior.rows[username] == Activity(|ms|, Tally(ms));
      CountPullActivity(prior, pr, username, bucket);
      MonthsBySnoc(prs, username, bucket);
      if pr.author == Login(username) {
        var month := bucket(pr.createdAt.value).value;
        assert MonthsBy(prs, username, bucket) == ms + [month];
        TallySnoc(ms, month);
      } else {
        assert MonthsBy(prs, username, bucket) == ms;
      }
    }
  }

  /**
   * The result of `get_external_contributors`: one entry per external contributor, whose
   * `prs` is the number of pull requests they opened, which is also the sum of the month
   * counts, and whose month count for `month` is how many of them were opened that month.
   */
  lemma ExternalActivity(contributors: seq<Record>, filterOrgs: seq<string>, roster: Rosters,
                         prs: seq<PullRequest>, username: string, month: string)
    requires Aggregate(contributors, filterOrgs, roster, prs).Success?
    ensures var t := Aggregate(contributors, filterOrgs, roster, prs).value;
      && WellFormed(t)
      && (username in t.rows <==> External(username, filterOrgs, roster) && LoggedAs(contributors, username))
      && (username in t.rows ==>
            var a := t.rows[username];
            && a.prs == |MonthsBy(prs, username, MonthKey)| == SumValues(a.months)
            && GetOr(a.months, month, 0) == Occurrences(MonthsBy(prs, username, MonthKey), month))
  {
    var base := Registered(contributors, filterOrgs, roster).value;
    RegisteredEntries(contributors, filterOrgs, roster);
    CountedKeys(prs, base, MonthKey);
    if username in base.rows {
      CountedActivity(prs, base, username, MonthKey);
      TallySum(MonthsBy(prs, username, MonthKey));
      TallyCounts(MonthsBy(prs, username, MonthKey), month);
    }
  }

  /** With no filter organizations every contributor is external, and no roster is fetched. */
  lemma NoFilterAllExternal(username: string, roster: Rosters)
    ensures External(username, [], roster)
    ensures Judged(username, [], roster) == Success(true)
    ensures Memoised(username, [], roster) == []
  {
  }

  // ---------------------------------------------------------------- TSV

  /** One line of four tab-separated fields. */
  function Line(a: string, b: string, c: string, d: string): string
  {
    a + "\t" + b + "\t" + c + "\t" + d + "\n"
  }

  const Header: string := Line("Contributor", "Total PRs", "Month", "PRs")

  /** `f"{username}\t{data['prs']}\t{month}\t{count}\n"`. */
  function Row(username: string, total: int, month: string, count: int): string
  {
    Line(username, IntToString(total), month, IntToString(count))
  }

  function MonthRows(username: string, total: int, months: Dict<string, int>): string
  {
    if months == [] then ""
    else
      var last := months[|months| - 1];
      MonthRows(username, total, months[..|months| - 1]) + Row(username, total, last.0, last.1)
  }

  /** The rows of the contributors in `order`, each with the months of its entry. */
  function Rows(order: seq<string>, rows: map<string, Activity>): string
    requires forall u :: u in order ==> u in rows
  {
    if order == [] then ""
    else
      var u := order[|order| - 1];
      Rows(order[..|order| - 1], rows) + MonthRows(u, rows[u].prs, rows[u].months)
  }

  lemma MonthRowsSnoc(username: string, total: int, months: Dict<string, int>, j: nat)
    requires j < |months|
    ensures MonthRows(username, total, months[..j + 1]) ==
      MonthRows(username, total, months[..j]) + Row(username, total, months[j].0, months[j].1)
  {
    assert months[..j + 1][..j] == months[..j];
  }

  lemma RowsSnoc(order: seq<string>, rows: map<string, Activity>, i: nat)
    requires forall u :: u in order ==> u in rows
    requires i < |order|
    ensures Rows(order[..i + 1], rows) ==
      Rows(order[..i], rows) + MonthRows(order[i], rows[order[i]].prs, rows[order[i]].months)
  {
    assert order[..i + 1][..i] == order[..i];
  }

  /** Regrouping a concatenation; a separate step keeps the loops below cheap to verify. */
  lemma AppendAssociates(a: string, b: string, c: string)
    ensures (a + b) + c == a + (b + c)
  {
  }

  /** The inner loop of `convert_to_tsv`: one row per month of one contributor. */
  method AppendMonthRows(prefix: string, username: string, a: Activity) returns (tsv: string)
    ensures tsv == prefix + MonthRows(username, a.prs, a.months)
  {
    tsv := prefix;
    for j := 0 to |a.months|
      invariant tsv == prefix + MonthRows(username, a.prs, a.months[..j])
    {
      var row := Row(username, a.prs, a.months[j].0, a.months[j].1);
      MonthRowsSnoc(username, a.prs, a.months, j);
      AppendAssociates(prefix, MonthRows(username, a.prs, a.months[..j]), row);
      tsv := tsv + row;
    }
    assert a.months[..|a.months|] == a.months;
  }

  /** `convert_to_tsv`: the header, then the rows built by `+=` in nested loops. */
  method ConvertToTsv(t: Table) returns (tsv: string)
    requires WellFormed(t)
    ensures tsv == Header + Rows(t.order, t.rows)
  {
    tsv := Header;
    ghost var header := tsv;
    assert Rows(t.order[..0], t.rows) == [];
    for i := 0 to |t.order|
      invariant tsv == header + Rows(t.order[..i], t.rows)
    {
      var username := t.order[i];
      var rows := AppendMonthRows(tsv, username, t.rows[username]);
      RowsSnoc(t.order, t.rows, i);
      AppendAssociates(header, Rows(t.order[..i], t.rows), MonthRows(username, t.rows[username].prs, t.rows[username].months));
      tsv := rows;
    }
    assert t.order[..|t.order|] == t.order;
  }

  /** Number of (contributor, month) pairs. */
  function PairCount(order: seq<string>, rows: map<string, Activity>): nat
    requires forall u :: u in order ==> u in rows
  {
    if order == [] then 0
    else PairCount(order[..|order| - 1], rows) + |rows[order[|order| - 1]].months|
  }

  /** No tab and no newline. */
  predicate Plain(s: string) { '\t' !in s && '\n' !in s }

  /** Usernames and month keys are plain. */
  predicate PlainNames(rows: map<string, Activity>)
  {
    forall u :: u in rows ==> Plain(u) && forall j :: 0 <= j < |rows[u].months| ==> Plain(rows[u].months[j].0)
  }

  lemma IntIsPlain(i: int)
    ensures Plain(IntToString(i))
  {
    var s := IntToString(i);
    assert forall k :: 0 <= k < |s| ==> s[k] != '\t' && s[k] != '\n';
  }

  lemma PlainField(field: string, sep: string, rest: string)
    requires Plain(field) && (sep == "\t" || sep == "\n")
    ensures CountChar(field + sep + rest, '\t') == (if sep == "\t" then 1 else 0) + CountChar(rest, '\t')
    ensures CountChar(field + sep + rest, '\n') == (if sep == "\n" then 1 else 0) + CountChar(rest, '\n')
  {
    CountCharAbsent(field, '\t');
    CountCharAbsent(field, '\n');
    assert field + sep + rest == field + (sep + rest);
    CountCharAppend(field, sep + rest, '\t');
    CountCharAppend(field, sep + rest, '\n');
  }

  /** A line of plain fields: one newline, at its end, three tabs, and the first field up front. */
  lemma LineShape(a: string, b: string, c: string, d: string)
    requires Plain(a) && Plain(b) && Plain(c) && Plain(d)
    ensures var line := Line(a, b, c, d);
      && CountChar(line, '\n') == 1 && line[|line| - 1] == '\n'
      && CountChar(line, '\t') == 3
      && line[..|a|] == a && line[|a|] == '\t'
  {
    var line := Line(a, b, c, d);
    var r3 := d + "\n" + "";
    var r2 := c + "\t" + r3;
    var r1 := b + "\t" + r2;
    assert line == a + "\t" + r1;
    PlainField(d, "\n", "");
    PlainField(c, "\t", r3);
    PlainField(b, "\t", r2);
    PlainField(a, "\t", r1);
  }

  lemma RowShape(username: string, total: int, month: string, count: int)
    requires Plain(username) && Plain(month)
    ensures var row := Row(username, total, month, count);
      && CountChar(row, '\n') == 1 && row[|row| - 1] == '\n'
      && CountChar(row, '\t') == 3
      && row[..|username|] == username && row[|username|] == '\t'
  {
    IntIsPlain(total);
    IntIsPlain(count);
    LineShape(username, IntToString(total), month, IntToString(count));
  }

  lemma {:induction false} MonthRowsShape(username: string, total: int, months: Dict<string, int>)
    requires Plain(username)
    requires forall j :: 0 <= j < |months| ==> Plain(months[j].0)
    ensures CountChar(MonthRows(username, total, months), '\n') == |months|
    ensures CountChar(MonthRows(username, total, months), '\t') == 3 * |months|
  {
    if months != [] {
      var prefix := months[..|months| - 1];
      var last := months[|months| - 1];
      MonthRowsShape(username, total, prefix);
      RowShape(username, total, last.0, last.1);
      CountCharAppend(MonthRows(username, total, prefix), Row(username, total, last.0, last.1), '\n');
      CountCharAppend(MonthRows(username, total, prefix), Row(username, total, last.0, last.1), '\t');
    }
  }

  lemma {:induction false} RowsShape(order: seq<string>, rows: map<string, Activity>)
    requires forall u :: u in order ==> u in rows
    requires PlainNames(rows)
    ensures CountChar(Rows(order, rows), '\n') == PairCount(order, rows)
    ensures CountChar(Rows(order, rows), '\t') == 3 * PairCount(order, rows)
  {
    if order != [] {
      var prefix := order[..|order| - 1];
      var u := order[|order| - 1];
      RowsShape(prefix, rows);
      MonthRowsShape(u, rows[u].prs, rows[u].months);
      CountCharAppend(Rows(prefix, rows), MonthRows(u, rows[u].prs, rows[u].months), '\n');
      CountCharAppend(Rows(prefix, rows), MonthRows(u, rows[u].prs, rows[u].months), '\t');
    }
  }

  /**
   * The TSV text has the header line plus exactly one line per (contributor, month) pair,
   * every line holding four tab-separated fields; contributors with no months add no line.
   */
  lemma TsvShape(t: Table)
    requires WellFormed(t) && PlainNames(t.rows)
    ensures CountChar(Header + Rows(t.order, t.rows), '\n') == 1 + PairCount(t.order, t.rows)
    ensures CountChar(Header + Rows(t.order, t.rows), '\t') == 3 * (1 + PairCount(t.order, t.rows))
  {
    assert Plain("Contributor") && Plain("Total PRs") && Plain("Month") && Plain("PRs");
    LineShape("Contributor", "Total PRs", "Month", "PRs");
    RowsShape(t.order, t.rows);
    CountCharAppend(Header, Rows(t.order, t.rows), '\n');
    CountCharAppend(Header, Rows(t.order, t.rows), '\t');
  }
}
