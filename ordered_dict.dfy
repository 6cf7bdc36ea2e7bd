/**
 * Python dictionaries whose iteration order is observable: an association list in
 * insertion order. `Put` is `d[k] = v`: it overwrites in place when the key is present
 * and appends otherwise, so keys stay unique and keep their first insertion position.
 */
module OrderedDict {
  import opened Common

  type Dict<K, V> = seq<(K, V)>

  function Keys<K, V>(d: Dict<K, V>): (ks: seq<K>)
    ensures |ks| == |d|
    ensures forall i {:trigger ks[i]} :: 0 <= i < |d| ==> ks[i] == d[i].0
  {
    if d == [] then [] else [d[0].0] + Keys(d[1..])
  }

  function Values<K, V>(d: Dict<K, V>): (vs: seq<V>)
    ensures |vs| == |d|
    ensures forall i {:trigger vs[i]} :: 0 <= i < |d| ==> vs[i] == d[i].1
  {
    if d == [] then [] else [d[0].1] + Values(d[1..])
  }

  /** No key occurs again further on (`UniqueKeysMeaning` states it position by position). */
  predicate UniqueKeys<K(==), V>(d: Dict<K, V>)
  {
    d == [] || (d[0].0 !in Keys(d[1..]) && UniqueKeys(d[1..]))
  }

  lemma {:induction false} UniqueKeysMeaning<K, V>(d: Dict<K, V>)
    ensures UniqueKeys(d) <==> forall i, j :: 0 <= i < j < |d| ==> d[i].0 != d[j].0
  {
    if d != [] {
      var tail := d[1..];
      UniqueKeysMeaning(tail);
      if UniqueKeys(d) {
        forall i, j | 0 <= i < j < |d| ensures d[i].0 != d[j].0 {
          if i == 0 {
            assert Keys(tail)[j - 1] == d[j].0;
          } else {
            assert tail[i - 1] == d[i] && tail[j - 1] == d[j];
          }
        }
      }
      if forall i, j :: 0 <= i < j < |d| ==> d[i].0 != d[j].0 {
        forall m | 0 <= m < |tail| ensures Keys(tail)[m] != d[0].0 {
          assert tail[m] == d[m + 1];
        }
        forall i, j | 0 <= i < j < |tail| ensures tail[i].0 != tail[j].0 {
          assert tail[i] == d[i + 1] && tail[j] == d[j + 1];
        }
      }
    }
  }

  /** `d.get(k)`: the value stored under the first occurrence of `k`. */
  function Get<K(==), V>(d: Dict<K, V>, k: K): Option<V>
  {
    if d == [] then None else if d[0].0 == k then Some(d[0].1) else Get(d[1..], k)
  }

  /** `d.get(k)` is `None` exactly when `k` is not a key of `d`. */
  lemma {:induction false} GetMeaning<K, V>(d: Dict<K, V>, k: K)
    ensures Get(d, k).None? <==> k !in Keys(d)
  {
    if d != [] {
      GetMeaning(d[1..], k);
      assert Keys(d) == [d[0].0] + Keys(d[1..]);
    }
  }

  /** A found value is stored in `d` under `k`, at the returned position. */
  lemma {:induction false} GetFound<K, V>(d: Dict<K, V>, k: K) returns (i: nat)
    requires Get(d, k).Some?
    ensures i < |d| && d[i] == (k, Get(d, k).value)
  {
    if d[0].0 == k {
      i := 0;
    } else {
      var j := GetFound(d[1..], k);
      i := j + 1;
    }
  }

  /** `d.get(k, default)`. */
  function GetOr<K(==), V>(d: Dict<K, V>, k: K, default: V): V
  {
    match Get(d, k)
    case Some(v) => v
    case None => default
  }

  /** `d[k] = v`. */
  function Put<K(==), V>(d: Dict<K, V>, k: K, v: V): (r: Dict<K, V>)
    ensures Get(r, k) == Some(v)
  {
    if d == [] then [(k, v)]
    else if d[0].0 == k then [(k, v)] + d[1..]
    else [d[0]] + Put(d[1..], k, v)
  }

  /** A present key keeps its position; a new key goes at the end. */
  lemma {:induction false} PutKeys<K, V>(d: Dict<K, V>, k: K, v: V)
    ensures k in Keys(d) ==> Keys(Put(d, k, v)) == Keys(d)
    ensures k !in Keys(d) ==> Put(d, k, v) == d + [(k, v)]
  {
    if d != [] && d[0].0 != k {
      PutKeys(d[1..], k, v);
      assert Keys(d) == [d[0].0] + Keys(d[1..]);
    }
  }

  /** Overwriting one key leaves every other key's value alone. */
  lemma {:induction false} PutOther<K, V>(d: Dict<K, V>, k: K, v: V, k': K)
    requires k' != k
    ensures Get(Put(d, k, v), k') == Get(d, k')
  {
    if d != [] && d[0].0 != k {
      PutOther(d[1..], k, v, k');
    }
  }

  /** The keys after `d[k] = v` are the keys before, and `k`. */
  lemma {:induction false} PutKeySet<K, V>(d: Dict<K, V>, k: K, v: V, x: K)
    ensures x in Keys(Put(d, k, v)) <==> x in Keys(d) || x == k
  {
    if d != [] {
      assert Keys(d) == [d[0].0] + Keys(d[1..]);
      if d[0].0 != k {
        PutKeySet(d[1..], k, v, x);
        assert Keys(Put(d, k, v)) == [d[0].0] + Keys(Put(d[1..], k, v));
      } else {
        assert Keys(Put(d, k, v)) == [k] + Keys(d[1..]);
      }
    }
  }

  /** `d[k] = v` keeps keys unique. */
  lemma {:induction false} PutUnique<K, V>(d: Dict<K, V>, k: K, v: V)
    requires UniqueKeys(d)
    ensures UniqueKeys(Put(d, k, v))
  {
    if d == [] {
      assert Put(d, k, v)[1..] == [];
    } else if d[0].0 == k {
      assert Put(d, k, v)[1..] == d[1..];
    } else {
      PutUnique(d[1..], k, v);
      PutKeySet(d[1..], k, v, d[0].0);
      assert Put(d, k, v)[1..] == Put(d[1..], k, v);
    }
  }

  /** Sum of the integer values, in order. */
  function SumValues<K>(d: Dict<K, int>): int
  {
    if d == [] then 0 else d[0].1 + SumValues(d[1..])
  }

  lemma {:induction false} SumValuesPut<K>(d: Dict<K, int>, k: K, v: int)
    requires UniqueKeys(d)
    ensures SumValues(Put(d, k, v)) == SumValues(d) - GetOr(d, k, 0) + v
  {
    if d != [] {
      if d[0].0 != k {
        SumValuesPut(d[1..], k, v);
      }
    }
  }
}
