/**
 * `count_open_issues` (chart_base.py): how many issues of a table were open on a given
 * date, optionally only those carrying a label. Timestamps are integers; a missing
 * `closed_at` (NaT for open issues) compares false, as pandas does.
 */
module ChartBase {
  import opened Common

  /** One row of the issues table. */
  datatype Issue = Issue(createdAt: int, state: string, closedAt: Option<int>, labels: seq<string>, hasNoLabels: bool)

  /** The state part of the mask: created by `date`, and open, or closed only after `date`. */
  predicate OpenOn(issue: Issue, date: int)
  {
    && issue.createdAt <= date
    && ((issue.state == "open" && issue.createdAt <= date)
        || (issue.state == "closed" && issue.closedAt.Some? && issue.closedAt.value > date))
  }

  /** The label part of the mask; `'no_labels'` selects by the `has_no_labels` column. */
  predicate Labelled(issue: Issue, wanted: Option<string>)
  {
    match wanted
    case None => true
    case Some(l) => if l == "no_labels" then issue.hasNoLabels else l in issue.labels
  }

  predicate Counted(issue: Issue, date: int, wanted: Option<string>)
  {
    OpenOn(issue, date) && Labelled(issue, wanted)
  }

  /** `len(df_issues[mask])`. */
  function CountOpenIssues(issues: seq<Issue>, date: int, wanted: Option<string>): nat
  {
    if issues == [] then 0
    else CountOpenIssues(issues[..|issues| - 1], date, wanted) + (if Counted(issues[|issues| - 1], date, wanted) then 1 else 0)
  }

  /** The count adds up over a split of the table. */
  lemma {:induction false} CountAppend(a: seq<Issue>, b: seq<Issue>, date: int, wanted: Option<string>)
    ensures CountOpenIssues(a + b, date, wanted) == CountOpenIssues(a, date, wanted) + CountOpenIssues(b, date, wanted)
  {
    if b != [] {
      assert (a + b)[..|a + b| - 1] == a + b[..|b| - 1];
      CountAppend(a, b[..|b| - 1], date, wanted);
    } else {
      assert a + b == a;
    }
  }

  /** A single row counts one exactly when the mask holds for it. */
  lemma CountSingle(issue: Issue, date: int, wanted: Option<string>)
    ensures CountOpenIssues([issue], date, wanted) == if Counted(issue, date, wanted) then 1 else 0
  {
    assert [issue][..0] == [];
  }

  /** The mask, case by case: created later never; open if created by then; closed if closed after. */
  lemma MaskCases(issue: Issue, date: int)
    ensures issue.createdAt > date ==> !OpenOn(issue, date)
    ensures issue.state == "open" ==> (OpenOn(issue, date) <==> issue.createdAt <= date)
    ensures issue.state == "closed" ==>
      (OpenOn(issue, date) <==> issue.createdAt <= date && issue.closedAt.Some? && issue.closedAt.value > date)
    ensures issue.closedAt == Some(date) && issue.state == "closed" ==> !OpenOn(issue, date)
    ensures issue.state != "open" && issue.state != "closed" ==> !OpenOn(issue, date)
  {
  }

  /** The count never exceeds the number of rows. */
  lemma {:induction false} CountBound(issues: seq<Issue>, date: int, wanted: Option<string>)
    ensures CountOpenIssues(issues, date, wanted) <= |issues|
    ensures CountOpenIssues(issues, date, wanted) == |issues| <==>
      forall i :: 0 <= i < |issues| ==> Counted(issues[i], date, wanted)
  {
    if issues != [] {
      var prefix := issues[..|issues| - 1];
      CountBound(prefix, date, wanted);
      assert forall i :: 0 <= i < |prefix| ==> prefix[i] == issues[i];
    }
  }

  /** No row counts exactly when the count is zero. */
  lemma {:induction false} CountZero(issues: seq<Issue>, date: int, wanted: Option<string>)
    ensures CountOpenIssues(issues, date, wanted) == 0 <==>
      forall i :: 0 <= i < |issues| ==> !Counted(issues[i], date, wanted)
  {
    if issues != [] {
      var prefix := issues[..|issues| - 1];
      CountZero(prefix, date, wanted);
      assert forall i :: 0 <= i < |prefix| ==> prefix[i] == issues[i];
    }
  }

  /** Adding a wanted filter never increases the count. */
  lemma {:induction false} LabelNarrows(issues: seq<Issue>, date: int, wanted: string)
    ensures CountOpenIssues(issues, date, Some(wanted)) <= CountOpenIssues(issues, date, None)
  {
    if issues != [] {
      LabelNarrows(issues[..|issues| - 1], date, wanted);
    }
  }

  /** `'no_labels'` counts the open rows flagged as having no labels, whatever their label lists say. */
  lemma {:induction false} NoLabelsUsesFlag(issues: seq<Issue>, date: int)
    ensures CountOpenIssues(issues, date, Some("no_labels")) == CountOpenIssues(Flagged(issues, true), date, None)
  {
    if issues != [] {
      var prefix := issues[..|issues| - 1];
      var last := issues[|issues| - 1];
      NoLabelsUsesFlag(prefix, date);
      CountAppend(Flagged(prefix, true), Flagged([last], true), date, None);
      assert Flagged(issues, true) == Flagged(prefix, true) + Flagged([last], true) by {
        assert [last][..0] == [];
      }
      CountSingle(last, date, None);
    }
  }

  /** The rows whose `has_no_labels` column is `flag`. */
  function Flagged(issues: seq<Issue>, flag: bool): seq<Issue>
  {
    if issues == [] then []
    else Flagged(issues[..|issues| - 1], flag) + (if issues[|issues| - 1].hasNoLabels == flag then [issues[|issues| - 1]] else [])
  }
}
