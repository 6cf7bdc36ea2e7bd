/**
 * Occurrence counts built the way github_cache.py and external_contributors.py build
 * them, one `counts[k] = counts.get(k, 0) + 1` at a time, over an insertion-ordered dict.
 */
module Tallies {
  import opened Common
  import opened OrderedDict

  /** A dict of occurrence counts built by `counts[k] = counts.get(k, 0) + 1` over `keys`. */
  function Tally<K(==)>(keys: seq<K>): Dict<K, int>
  {
    if keys == [] then [] else Bump(Tally(keys[..|keys| - 1]), keys[|keys| - 1])
  }

  /** `counts[k] = counts.get(k, 0) + 1`. */
  function Bump<K(==)>(counts: Dict<K, int>, k: K): Dict<K, int>
  {
    Put(counts, k, GetOr(counts, k, 0) + 1)
  }

  function Occurrences<K(==)>(keys: seq<K>, k: K): nat
  {
    if keys == [] then 0
    else Occurrences(keys[..|keys| - 1], k) + (if keys[|keys| - 1] == k then 1 else 0)
  }

  /** Tallying one more key bumps that key's count. */
  lemma TallySnoc<K>(keys: seq<K>, k: K)
    ensures Tally(keys + [k]) == Bump(Tally(keys), k)
  {
    assert (keys + [k])[..|keys|] == keys;
  }

  lemma {:induction false} TallyUnique<K>(keys: seq<K>)
    ensures UniqueKeys(Tally(keys))
  {
    if keys != [] {
      var t := Tally(keys[..|keys| - 1]);
      var last := keys[|keys| - 1];
      TallyUnique(keys[..|keys| - 1]);
      PutUnique(t, last, GetOr(t, last, 0) + 1);
    }
  }

  /** Each key's count is its number of occurrences. */
  lemma {:induction false} TallyCounts<K>(keys: seq<K>, k: K)
    ensures GetOr(Tally(keys), k, 0) == Occurrences(keys, k)
  {
    if keys != [] {
      var prefix := keys[..|keys| - 1];
      var t := Tally(prefix);
      var last := keys[|keys| - 1];
      var v := GetOr(t, last, 0) + 1;

      TallyCounts(prefix, k);
      if last != k {
        PutOther(t, last, v, k);
        assert Occurrences(keys, k) == Occurrences(prefix, k);
      } else {
        assert Get(Put(t, last, v), k) == Some(v);
        assert Occurrences(keys, k) == Occurrences(prefix, k) + 1;
      }
    }
  }

  /** The counts add up to the number of keys tallied. */
  lemma {:induction false} TallySum<K>(keys: seq<K>)
    ensures SumValues(Tally(keys)) == |keys|
  {
    if keys != [] {
      var prefix := keys[..|keys| - 1];
      var t := Tally(prefix);
      var last := keys[|keys| - 1];
      TallySum(prefix);
      TallyUnique(prefix);
      SumValuesPut(t, last, GetOr(t, last, 0) + 1);
    }
  }
}
