/**
 * The merge loops of `fetch_issues`, `fetch_contributors` and `fetch_pull_requests`:
 * walk `fetched + cached`, keep a record when its identity is not yet in `seen`.
 */
module Dedup {
  import opened Common
  import opened Records

  /** The identity key of each listing: `id` (issues), `login` (contributors), `number` (PRs). */
  datatype IdField = ById | ByLogin | ByNumber

  datatype Key = IntKey(i: int) | StrKey(s: string)

  function IdentityOf(r: Record, f: IdField): Option<Key>
  {
    match f
    case ById => if r.id.Some? then Some(IntKey(r.id.value)) else None
    case ByLogin => if r.login.Some? then Some(StrKey(r.login.value)) else None
    case ByNumber => if r.number.Some? then Some(IntKey(r.number.value)) else None
  }

  function FieldName(f: IdField): string
  {
    match f
    case ById => "id"
    case ByLogin => "login"
    case ByNumber => "number"
  }

  predicate Identified(s: seq<Record>, f: IdField)
  {
    forall i :: 0 <= i < |s| ==> IdentityOf(s[i], f).Some?
  }

  function KeyOf(r: Record, f: IdField): Key
    requires IdentityOf(r, f).Some?
  {
    IdentityOf(r, f).value
  }

  /** The identities occurring in `s`. */
  function KeySet(s: seq<Record>, f: IdField): set<Key>
    requires Identified(s, f)
  {
    if s == [] then {} else KeySet(s[..|s| - 1], f) + {KeyOf(s[|s| - 1], f)}
  }

  /** The records the merge loop keeps from `s`: each one whose identity has not been seen before it. */
  function FirstOccurrences(s: seq<Record>, f: IdField): seq<Record>
    requires Identified(s, f)
  {
    if s == [] then []
    else
      var prefix := s[..|s| - 1];
      var last := s[|s| - 1];
      if KeyOf(last, f) in KeySet(prefix, f) then FirstOccurrences(prefix, f)
      else FirstOccurrences(prefix, f) + [last]
  }

  /** The merge of `fetched + cached`, or the KeyError raised by a record without the identity field. */
  function Merged(fetched: seq<Record>, cached: seq<Record>, f: IdField): Result<seq<Record>, Error>
  {
    if Identified(fetched + cached, f) then Success(FirstOccurrences(fetched + cached, f))
    else Failure(MissingKey(FieldName(f)))
  }

  /** The dedup loop. */
  method DedupMerge(fetched: seq<Record>, cached: seq<Record>, f: IdField) returns (r: Result<seq<Record>, Error>)
    ensures r == Merged(fetched, cached, f)
  {
    var all := fetched + cached;
    var seen: set<Key> := {};
    var unique: seq<Record> := [];
    var i := 0;
    while i < |all|
      invariant 0 <= i <= |all|
      invariant Identified(all[..i], f)
      invariant seen == KeySet(all[..i], f)
      invariant unique == FirstOccurrences(all[..i], f)
    {
      var item := all[i];
      var key := IdentityOf(item, f);
      if key.None? {
        return Failure(MissingKey(FieldName(f)));
      }
      assert all[..i + 1][..i] == all[..i];
      if key.value !in seen {
        seen := seen + {key.value};
        unique := unique + [item];
      }
      i := i + 1;
    }
    assert all[..|all|] == all;
    return Success(unique);
  }

  /** A key is in `KeySet` exactly when some record carries it. */
  lemma {:induction false} KeySetMembers(s: seq<Record>, f: IdField, k: Key)
    requires Identified(s, f)
    ensures k in KeySet(s, f) <==> exists i :: 0 <= i < |s| && KeyOf(s[i], f) == k
  {
    if s != [] {
      var prefix := s[..|s| - 1];
      KeySetMembers(prefix, f, k);
      if k in KeySet(prefix, f) {
        var i :| 0 <= i < |prefix| && KeyOf(prefix[i], f) == k;
        assert s[i] == prefix[i];
      }
      if exists i :: 0 <= i < |s| && KeyOf(s[i], f) == k {
        var i :| 0 <= i < |s| && KeyOf(s[i], f) == k;
        if i < |s| - 1 {
          assert prefix[i] == s[i];
        }
      }
    }
  }

  lemma {:induction false} FirstOccurrencesFromInput(s: seq<Record>, f: IdField)
    requires Identified(s, f)
    ensures forall x :: x in FirstOccurrences(s, f) ==> x in s
    ensures Identified(FirstOccurrences(s, f), f)
  {
    if s != [] {
      FirstOccurrencesFromInput(s[..|s| - 1], f);
    }
  }

  lemma KeySetSnoc(s: seq<Record>, x: Record, f: IdField)
    requires Identified(s + [x], f)
    ensures Identified(s, f) && IdentityOf(x, f).Some?
    ensures KeySet(s + [x], f) == KeySet(s, f) + {KeyOf(x, f)}
  {
    assert (s + [x])[..|s|] == s;
    assert (s + [x])[|s|] == x;
  }

  /** The merged list holds every identity of the input. */
  lemma {:induction false} FirstOccurrencesKeySet(s: seq<Record>, f: IdField)
    requires Identified(s, f)
    ensures Identified(FirstOccurrences(s, f), f)
    ensures KeySet(FirstOccurrences(s, f), f) == KeySet(s, f)
  {
    FirstOccurrencesFromInput(s, f);
    if s != [] {
      var prefix := s[..|s| - 1];
      var last := s[|s| - 1];
      FirstOccurrencesKeySet(prefix, f);
      if KeyOf(last, f) !in KeySet(prefix, f) {
        KeySetSnoc(FirstOccurrences(prefix, f), last, f);
      }
    }
  }

  /** The merged list has no two records with the same identity. */
  lemma {:induction false} FirstOccurrencesUnique(s: seq<Record>, f: IdField)
    requires Identified(s, f)
    ensures Identified(FirstOccurrences(s, f), f)
    ensures forall i, j :: 0 <= i < j < |FirstOccurrences(s, f)| ==>
      IdentityOf(FirstOccurrences(s, f)[i], f) != IdentityOf(FirstOccurrences(s, f)[j], f)
  {
    FirstOccurrencesFromInput(s, f);
    if s != [] {
      var prefix := s[..|s| - 1];
      var last := s[|s| - 1];
      var d := FirstOccurrences(prefix, f);
      FirstOccurrencesUnique(prefix, f);
      if KeyOf(last, f) !in KeySet(prefix, f) {
        FirstOccurrencesKeySet(prefix, f);
        var d' := d + [last];
        forall i, j | 0 <= i < j < |d'| ensures IdentityOf(d'[i], f) != IdentityOf(d'[j], f) {
          if j == |d'| - 1 {
            KeySetMembers(d, f, KeyOf(d'[i], f));
          }
        }
      }
    }
  }

  /** So the merged list has exactly as many records as the input has distinct identities. */
  lemma {:induction false} FirstOccurrencesLength(s: seq<Record>, f: IdField)
    requires Identified(s, f)
    ensures |FirstOccurrences(s, f)| == |KeySet(s, f)|
  {
    if s != [] {
      FirstOccurrencesLength(s[..|s| - 1], f);
    }
  }

  /** The merged list keeps the input's order: it is a subsequence of `fetched + cached`. */
  lemma {:induction false} FirstOccurrencesOrdered(s: seq<Record>, f: IdField)
    requires Identified(s, f)
    ensures Subsequence(FirstOccurrences(s, f), s)
  {
    if s != [] {
      var prefix := s[..|s| - 1];
      FirstOccurrencesOrdered(prefix, f);
      var d := FirstOccurrences(prefix, f);
      if KeyOf(s[|s| - 1], f) in KeySet(prefix, f) {
        SubsequenceExtend(d, prefix, s[|s| - 1]);
        assert prefix + [s[|s| - 1]] == s;
      } else {
        var d' := d + [s[|s| - 1]];
        assert d'[..|d'| - 1] == d;
      }
    }
  }

  /** Every kept record is the first one in the input that carries its identity. */
  lemma {:induction false} FirstOccurrenceWins(s: seq<Record>, f: IdField, i: nat)
    requires Identified(s, f) && i < |s|
    requires forall j :: 0 <= j < i ==> IdentityOf(s[j], f) != IdentityOf(s[i], f)
    ensures s[i] in FirstOccurrences(s, f)
  {
    var prefix := s[..|s| - 1];
    if i == |s| - 1 {
      KeySetMembers(prefix, f, KeyOf(s[i], f));
    } else {
      FirstOccurrenceWins(prefix, f, i);
    }
  }

  /** A kept record is the first one in the input that carries its identity; `i` is its position. */
  lemma {:induction false} KeptIsFirst(s: seq<Record>, f: IdField, x: Record) returns (i: nat)
    requires Identified(s, f)
    requires x in FirstOccurrences(s, f)
    ensures i < |s| && s[i] == x
    ensures forall j :: 0 <= j < i ==> IdentityOf(s[j], f) != IdentityOf(x, f)
  {
    var prefix := s[..|s| - 1];
    var last := s[|s| - 1];
    assert Identified(prefix, f) by {
      forall j | 0 <= j < |prefix| ensures IdentityOf(prefix[j], f).Some? {
        assert prefix[j] == s[j];
      }
    }
    if x in FirstOccurrences(prefix, f) {
      i := KeptIsFirst(prefix, f, x);
      assert s[i] == prefix[i];
      assert forall j :: 0 <= j < i ==> s[j] == prefix[j];
    } else {
      assert x == last && KeyOf(last, f) !in KeySet(prefix, f);
      i := |s| - 1;
      KeySetMembers(prefix, f, KeyOf(x, f));
      forall j | 0 <= j < i ensures IdentityOf(s[j], f) != IdentityOf(x, f) {
        assert prefix[j] == s[j];
      }
    }
  }

  /**
   * Merging fetched records (with distinct identities) in front of cached ones: every fetched
   * record survives, and a cached record survives only when no fetched record shares its
   * identity.
   */
  lemma FetchedWins(fetched: seq<Record>, cached: seq<Record>, f: IdField)
    requires Identified(fetched + cached, f)
    requires forall i, j :: 0 <= i < j < |fetched| ==> IdentityOf(fetched[i], f) != IdentityOf(fetched[j], f)
    ensures forall x :: x in fetched ==> x in FirstOccurrences(fetched + cached, f)
    ensures forall c :: c in FirstOccurrences(fetched + cached, f) && c !in fetched ==>
      c in cached && forall x :: x in fetched ==> IdentityOf(x, f) != IdentityOf(c, f)
  {
    var s := fetched + cached;
    forall x | x in fetched ensures x in FirstOccurrences(s, f) {
      var i :| 0 <= i < |fetched| && fetched[i] == x;
      assert s[i] == x;
      FirstOccurrenceWins(s, f, i);
    }
    forall c | c in FirstOccurrences(s, f) && c !in fetched
      ensures c in cached && forall x :: x in fetched ==> IdentityOf(x, f) != IdentityOf(c, f)
    {
      var i := KeptIsFirst(s, f, c);
      assert forall k :: 0 <= k < |fetched| ==> s[k] == fetched[k];
      assert i >= |fetched|;
      assert c == cached[i - |fetched|];
      forall x | x in fetched ensures IdentityOf(x, f) != IdentityOf(c, f) {
        var j :| 0 <= j < |fetched| && fetched[j] == x;
        assert s[j] == x;
      }
    }
  }

  lemma KeySetAppend(a: seq<Record>, b: seq<Record>, f: IdField)
    requires Identified(a + b, f)
    ensures Identified(a, f) && Identified(b, f)
    ensures KeySet(a + b, f) == KeySet(a, f) + KeySet(b, f)
  {
    assert forall i :: 0 <= i < |a| ==> (a + b)[i] == a[i];
    assert forall i :: 0 <= i < |b| ==> (a + b)[|a| + i] == b[i];
    forall k ensures k in KeySet(a + b, f) <==> k in KeySet(a, f) + KeySet(b, f) {
      KeySetMembers(a + b, f, k);
      KeySetMembers(a, f, k);
      KeySetMembers(b, f, k);
      if exists i :: 0 <= i < |a + b| && KeyOf((a + b)[i], f) == k {
        var i :| 0 <= i < |a + b| && KeyOf((a + b)[i], f) == k;
        if i >= |a| {
          assert b[i - |a|] == (a + b)[i];
        }
      }
    }
  }

  /** The merged length is the number of identities in either list. */
  lemma MergeLength(fetched: seq<Record>, cached: seq<Record>, f: IdField)
    requires Identified(fetched + cached, f)
    ensures Identified(fetched, f) && Identified(cached, f)
    ensures |FirstOccurrences(fetched + cached, f)| == |KeySet(fetched, f) + KeySet(cached, f)|
  {
    KeySetAppend(fetched, cached, f);
    FirstOccurrencesLength(fetched + cached, f);
  }
}
