/**
 * `GitHubCache.get_cache_path`: the cache file path of a request is the endpoint with every
 * '/' turned into '_', followed by the parameters sorted by name as `_name_value` pairs, plus
 * ".json", inside the cache directory.
 */
module CacheKey {
  import opened Common
  import opened Records

  /** Python's `<` on strings: code-point order, a proper prefix first. */
  predicate StrLt(a: string, b: string)
  {
    if b == [] then false
    else if a == [] then true
    else if a[0] != b[0] then a[0] < b[0]
    else StrLt(a[1..], b[1..])
  }

  lemma {:induction false} StrLtIrreflexive(a: string)
    ensures !StrLt(a, a)
  {
    if a != [] {
      StrLtIrreflexive(a[1..]);
    }
  }

  lemma {:induction false} StrLtTransitive(a: string, b: string, c: string)
    requires StrLt(a, b) && StrLt(b, c)
    ensures StrLt(a, c)
  {
    if a != [] && a[0] == b[0] && b[0] == c[0] {
      StrLtTransitive(a[1..], b[1..], c[1..]);
    }
  }

  lemma {:induction false} StrLtTotal(a: string, b: string)
    requires a != b
    ensures StrLt(a, b) || StrLt(b, a)
  {
    if a != [] && b != [] && a[0] == b[0] {
      assert a[1..] != b[1..] by {
        assert a == [a[0]] + a[1..] && b == [b[0]] + b[1..];
      }
      StrLtTotal(a[1..], b[1..]);
    }
  }

  predicate DistinctKeys(ps: seq<Param>)
  {
    forall i, j :: 0 <= i < j < |ps| ==> ps[i].0 != ps[j].0
  }

  predicate StrictlySorted(ps: seq<Param>)
  {
    forall i, j :: 0 <= i < j < |ps| ==> StrLt(ps[i].0, ps[j].0)
  }

  function Insert(p: Param, ps: seq<Param>): seq<Param>
  {
    if ps == [] then [p]
    else if StrLt(p.0, ps[0].0) then [p] + ps
    else [ps[0]] + Insert(p, ps[1..])
  }

  /** `sorted(params.items())`: the items ordered by parameter name. */
  function SortParams(ps: seq<Param>): seq<Param>
  {
    if ps == [] then [] else Insert(ps[0], SortParams(ps[1..]))
  }

  lemma {:induction false} InsertPermutes(p: Param, ps: seq<Param>)
    ensures multiset(Insert(p, ps)) == multiset(ps) + multiset{p}
  {
    if ps != [] && !StrLt(p.0, ps[0].0) {
      InsertPermutes(p, ps[1..]);
      assert ps == [ps[0]] + ps[1..];
    }
  }

  lemma {:induction false} InsertSorted(p: Param, ps: seq<Param>)
    requires StrictlySorted(ps)
    requires forall i :: 0 <= i < |ps| ==> ps[i].0 != p.0
    ensures StrictlySorted(Insert(p, ps))
  {
    if ps == [] {
    } else if StrLt(p.0, ps[0].0) {
      forall j | 0 < j < |ps| ensures StrLt(p.0, ps[j].0) {
        StrLtTransitive(p.0, ps[0].0, ps[j].0);
      }
    } else {
      StrLtTotal(p.0, ps[0].0);
      var tail := ps[1..];
      InsertSorted(p, tail);
      assert forall i :: 0 <= i < |tail| ==> StrLt(ps[0].0, tail[i].0) by {
        forall i | 0 <= i < |tail| ensures StrLt(ps[0].0, tail[i].0) {
          assert tail[i] == ps[i + 1];
        }
      }
      InsertAbove(ps[0].0, p, tail);
      ConsSorted(ps[0], Insert(p, tail));
    }
  }

  /** A name below `p`'s and below every name of `ps` is below every name of `Insert(p, ps)`. */
  lemma {:induction false} InsertAbove(low: string, p: Param, ps: seq<Param>)
    requires StrLt(low, p.0) && forall i :: 0 <= i < |ps| ==> StrLt(low, ps[i].0)
    ensures forall i :: 0 <= i < |Insert(p, ps)| ==> StrLt(low, Insert(p, ps)[i].0)
  {
    if ps != [] && !StrLt(p.0, ps[0].0) {
      var tail := ps[1..];
      assert forall i :: 0 <= i < |tail| ==> tail[i] == ps[i + 1];
      InsertAbove(low, p, tail);
      assert Insert(p, ps) == [ps[0]] + Insert(p, tail);
    }
  }

  /** Putting an item with a name below all the others in front of a sorted sequence keeps it sorted. */
  lemma ConsSorted(h: Param, rest: seq<Param>)
    requires StrictlySorted(rest) && forall i :: 0 <= i < |rest| ==> StrLt(h.0, rest[i].0)
    ensures StrictlySorted([h] + rest)
  {
    var r := [h] + rest;
    forall i, j | 0 <= i < j < |r| ensures StrLt(r[i].0, r[j].0) {
      if i == 0 {
        assert r[j] == rest[j - 1];
      } else {
        assert r[i] == rest[i - 1] && r[j] == rest[j - 1];
      }
    }
  }

  lemma {:induction false} SortParamsSorted(ps: seq<Param>)
    requires DistinctKeys(ps)
    ensures multiset(SortParams(ps)) == multiset(ps)
    ensures StrictlySorted(SortParams(ps))
  {
    if ps != [] {
      var tail := SortParams(ps[1..]);
      SortParamsSorted(ps[1..]);
      NewKey(ps, tail);
      InsertSorted(ps[0], tail);
      InsertPermutes(ps[0], tail);
      assert ps == [ps[0]] + ps[1..];
    }
  }

  /** A permutation of the tail of a list with distinct keys holds no item with the head's key. */
  lemma NewKey(ps: seq<Param>, tail: seq<Param>)
    requires ps != [] && DistinctKeys(ps) && multiset(tail) == multiset(ps[1..])
    ensures forall i :: 0 <= i < |tail| ==> tail[i].0 != ps[0].0
  {
    forall i | 0 <= i < |tail| ensures tail[i].0 != ps[0].0 {
      assert tail[i] in multiset(ps[1..]);
      var j :| 0 <= j < |ps[1..]| && ps[1..][j] == tail[i];
      assert ps[j + 1] == tail[i];
    }
  }

  lemma MultisetTail(a: seq<Param>)
    requires a != []
    ensures multiset(a[1..]) == multiset(a) - multiset{a[0]}
  {
    assert a == [a[0]] + a[1..];
  }

  /** Sorted sequences with the same elements start with the same element (their least). */
  lemma SortedSameHead(a: seq<Param>, b: seq<Param>)
    requires StrictlySorted(a) && StrictlySorted(b)
    requires multiset(a) == multiset(b) && a != []
    ensures b != [] && a[0] == b[0]
  {
    assert a[0] in multiset(b);
    assert b[0] in multiset(a);
    var i :| 0 <= i < |b| && b[i] == a[0];
    var j :| 0 <= j < |a| && a[j] == b[0];
    if i != 0 {
      if j == 0 {
        StrLtIrreflexive(b[0].0);
      } else {
        StrLtIrreflexive(a[0].0);
        StrLtTransitive(a[0].0, b[0].0, a[0].0);
      }
    }
  }

  /** Two strictly sorted sequences with the same elements are the same sequence. */
  lemma {:induction false} SortedUnique(a: seq<Param>, b: seq<Param>)
    requires StrictlySorted(a) && StrictlySorted(b)
    requires multiset(a) == multiset(b)
    ensures a == b
  {
    if a == [] {
      assert |b| == |multiset(b)|;
    } else {
      SortedSameHead(a, b);
      MultisetTail(a);
      MultisetTail(b);
      SortedUnique(a[1..], b[1..]);
      assert a == [a[0]] + a[1..] && b == [b[0]] + b[1..];
    }
  }

  /** `'_'.join(f"{k}_{v}" for k, v in ps)`. */
  function JoinParams(ps: seq<Param>): string
  {
    if ps == [] then ""
    else if |ps| == 1 then ps[0].0 + "_" + ps[0].1
    else ps[0].0 + "_" + ps[0].1 + "_" + JoinParams(ps[1..])
  }

  /** The file name stem: the endpoint with '/' replaced by '_', then the sorted parameters. */
  function CacheKeyName(endpoint: string, params: seq<Param>): string
  {
    var stem := ReplaceChar(endpoint, '/', '_');
    if params == [] then stem else stem + "_" + JoinParams(SortParams(params))
  }

  /** `os.path.join(dir, name)` on POSIX. */
  function PathJoin(dir: string, name: string): string
  {
    if name != [] && name[0] == '/' then name
    else if dir == [] || dir[|dir| - 1] == '/' then dir + name
    else dir + "/" + name
  }

  function CachePath(cacheDir: string, endpoint: string, params: seq<Param>): string
  {
    PathJoin(cacheDir, CacheKeyName(endpoint, params) + ".json")
  }

  /** The path depends on the parameters as a dict, not on the order they were inserted in. */
  lemma CachePathOrderIndependent(cacheDir: string, endpoint: string, p: seq<Param>, q: seq<Param>)
    requires DistinctKeys(p) && DistinctKeys(q)
    requires multiset(p) == multiset(q)
    ensures CachePath(cacheDir, endpoint, p) == CachePath(cacheDir, endpoint, q)
  {
    SortParamsSorted(p);
    SortParamsSorted(q);
    SortedUnique(SortParams(p), SortParams(q));
    assert p == [] <==> q == [] by {
      assert |p| == |multiset(p)| && |q| == |multiset(q)|;
    }
  }

  /**
   * Without parameters the file is `<dir>/<endpoint with '/' as '_'>.json`: no parameter
   * suffix, each '/' of the endpoint turned into '_', every other character kept, and so no
   * '/' in the name.
   */
  lemma CachePathWithoutParams(cacheDir: string, endpoint: string)
    requires cacheDir != [] && cacheDir[|cacheDir| - 1] != '/'
    ensures exists stem: string ::
      && CachePath(cacheDir, endpoint, []) == cacheDir + "/" + stem + ".json"
      && |stem| == |endpoint|
      && '/' !in stem
      && forall i :: 0 <= i < |endpoint| ==> stem[i] == (if endpoint[i] == '/' then '_' else endpoint[i])
  {
    var stem := ReplaceChar(endpoint, '/', '_');
    assert (stem + ".json")[0] != '/' by {
      if stem == [] {
        assert (stem + ".json")[0] == '.';
      } else {
        assert (stem + ".json")[0] == stem[0];
      }
    }
    assert '/' !in stem by {
      forall i | 0 <= i < |stem| ensures stem[i] != '/' { }
    }
  }

  /** The file name never starts with '/', so the cache directory is always kept. */
  lemma CachePathInCacheDir(cacheDir: string, endpoint: string, params: seq<Param>)
    ensures cacheDir <= CachePath(cacheDir, endpoint, params)
  {
    var name := CacheKeyName(endpoint, params) + ".json";
    var stem := ReplaceChar(endpoint, '/', '_');
    assert name[0] != '/' by {
      if stem != [] {
        assert name[0] == stem[0];
      } else if params == [] {
        assert name[0] == '.';
      } else {
        assert name[0] == '_';
      }
    }
  }

  /** Keys are not injective: `{a: "b_c"}` and `{a_b: "c"}` share one cache file. */
  lemma KeysCanCollide(cacheDir: string, endpoint: string)
    ensures CachePath(cacheDir, endpoint, [("a", "b_c")]) == CachePath(cacheDir, endpoint, [("a_b", "c")])
  {
    assert SortParams([("a", "b_c")]) == [("a", "b_c")];
    assert SortParams([("a_b", "c")]) == [("a_b", "c")];
    assert JoinParams([("a", "b_c")]) == "a_b_c" == JoinParams([("a_b", "c")]);
  }
}
