/**
 * Frequency counting: the accumulator pattern shared by both reduces of the
 * alert component. Each record contributes an optional key; a present key
 * raises its count by one, an absent key leaves the accumulator alone.
 */
module Frequency {
  import opened Wrappers

  /** `(acc[k] || 0)`: the count already recorded for `k`, or 0 when `k` has no entry. */
  function CountOrZero<K>(acc: map<K, nat>, k: K): nat
  {
    if k in acc then acc[k] else 0
  }

  /** One step of the reduce: `acc[k] = (acc[k] || 0) + 1` when the key is present. */
  function Tally<K>(acc: map<K, nat>, key: Option<K>): (r: map<K, nat>)
    ensures key.None? ==> r == acc
    ensures key.Some? ==> r.Keys == acc.Keys + {key.value}
    ensures key.Some? ==> r[key.value] == CountOrZero(acc, key.value) + 1
    ensures forall k | k in acc && key != Some(k) :: k in r && r[k] == acc[k]
  {
    match key
    case None => acc
    case Some(k) => acc[k := CountOrZero(acc, k) + 1]
  }

  /** The accumulator after folding `Tally` over `keys` from left to right, starting from `{}`. */
  function Frequencies<K>(keys: seq<Option<K>>): (r: map<K, nat>)
    ensures forall k | k in r :: r[k] >= 1
  {
    if keys == [] then map[] else Tally(Frequencies(keys[..|keys| - 1]), keys[|keys| - 1])
  }

  /** Reference definition: how many entries of `keys` carry the key `k`. */
  function Occurrences<K(==)>(keys: seq<Option<K>>, k: K): nat
  {
    multiset(keys)[Some(k)]
  }

  /** Reference definition: how many entries of `keys` carry any key at all. */
  function Present<K(==)>(keys: seq<Option<K>>): nat
  {
    |keys| - multiset(keys)[None]
  }

  /** Reading `acc[k] || 0` from the folded map gives the number of entries carrying `k`, 0 included. */
  lemma CountOrZeroOccurrences<K>(keys: seq<Option<K>>, k: K)
    ensures CountOrZero(Frequencies(keys), k) == Occurrences(keys, k)
  {
    FrequenciesCount(keys, k);
  }

  /** One more entry raises the count of its own key by one and leaves every other count alone. */
  lemma OccurrencesSnoc<K>(keys: seq<Option<K>>, key: Option<K>, k: K)
    ensures Occurrences(keys + [key], k) == Occurrences(keys, k) + (if key == Some(k) then 1 else 0)
  {
  }

  /** The distinct keys carried by the entries of `keys`. */
  function Carried<K>(keys: seq<Option<K>>): set<K>
  {
    set x | x in keys && x.Some? :: x.value
  }

  /** The key `keyOf` extracts from each entry, in order. */
  function Image<A, K>(entries: seq<A>, keyOf: A -> Option<K>): (keys: seq<Option<K>>)
    ensures |keys| == |entries|
  {
    seq(|entries|, i requires 0 <= i < |entries| => keyOf(entries[i]))
  }

  /** Sum of all counts of a map. */
  ghost function MapSum<K>(m: map<K, nat>): nat
    decreases |m|
  {
    if m == map[] then 0
    else
      var k :| k in m;
      assert (m - {k}).Keys == m.Keys - {k};
      m[k] + MapSum(m - {k})
  }

  /** Processing one more entry is one more `Tally` step. */
  lemma FrequenciesSnoc<K>(keys: seq<Option<K>>, key: Option<K>)
    ensures Frequencies(keys + [key]) == Tally(Frequencies(keys), key)
  {
    assert (keys + [key])[..|keys|] == keys;
  }

  /** For every key, the count in the map is the number of entries carrying it, and a key is in the map exactly when some entry carries it. */
  lemma {:induction false} FrequenciesCount<K>(keys: seq<Option<K>>, k: K)
    ensures k in Frequencies(keys) <==> Occurrences(keys, k) > 0
    ensures k in Frequencies(keys) ==> Frequencies(keys)[k] == Occurrences(keys, k)
  {
    if keys != [] {
      var n := |keys| - 1;
      FrequenciesCount(keys[..n], k);
      assert keys == keys[..n] + [keys[n]];
    }
  }

  /** The keys of the map are exactly the keys the entries carry: none is missing, none is invented. */
  lemma {:induction false} FrequenciesKeys<K>(keys: seq<Option<K>>)
    ensures Frequencies(keys).Keys == Carried(keys)
  {
    var f, c := Frequencies(keys), Carried(keys);
    forall k | k in f.Keys + c ensures k in f.Keys <==> k in c {
      FrequenciesCount(keys, k);
      if k in c {
        var x :| x in keys && x.Some? && x.value == k;
        assert x == Some(k);
      }
      assert Some(k) in keys ==> k in c;
    }
  }

  /** The count map depends only on the multiset of keys, not on their order. */
  lemma {:induction false} FrequenciesPermutation<K>(a: seq<Option<K>>, b: seq<Option<K>>)
    requires multiset(a) == multiset(b)
    ensures Frequencies(a) == Frequencies(b)
  {
    var fa, fb := Frequencies(a), Frequencies(b);
    forall k | k in fa.Keys + fb.Keys ensures k in fa.Keys <==> k in fb.Keys {
      FrequenciesCount(a, k);
      FrequenciesCount(b, k);
    }
    assert fa.Keys == fb.Keys;
    forall k | k in fa ensures fa[k] == fb[k] {
      FrequenciesCount(a, k);
      FrequenciesCount(b, k);
    }
  }

  /** Removing any one key takes its count out of the sum, whichever key the sum picked first. */
  lemma {:induction false} MapSumRemove<K>(m: map<K, nat>, k: K)
    requires k in m
    ensures MapSum(m) == m[k] + MapSum(m - {k})
    decreases |m|
  {
    var j :| j in m && MapSum(m) == m[j] + MapSum(m - {j});
    if j != k {
      assert (m - {j}).Keys == m.Keys - {j};
      assert (m - {k}).Keys == m.Keys - {k};
      MapSumRemove(m - {j}, k);
      MapSumRemove(m - {k}, j);
      assert m - {j} - {k} == m - {k} - {j};
    }
  }

  /** A `Tally` step with a present key raises the sum of counts by exactly one. */
  lemma MapSumTally<K>(acc: map<K, nat>, key: Option<K>)
    ensures MapSum(Tally(acc, key)) == MapSum(acc) + (if key.Some? then 1 else 0)
  {
    if key.Some? {
      var k := key.value;
      var r := Tally(acc, key);
      MapSumRemove(r, k);
      if k in acc {
        MapSumRemove(acc, k);
        assert r - {k} == acc - {k};
      } else {
        assert r - {k} == acc;
      }
    }
  }

  /** Conservation: the counts add up to the number of entries that carry a key. */
  lemma {:induction false} FrequenciesTotal<K>(keys: seq<Option<K>>)
    ensures MapSum(Frequencies(keys)) == Present(keys)
  {
    if keys != [] {
      var n := |keys| - 1;
      FrequenciesTotal(keys[..n]);
      MapSumTally(Frequencies(keys[..n]), keys[n]);
      assert keys == keys[..n] + [keys[n]];
    }
  }

  lemma ImageConcat<A, K>(a: seq<A>, b: seq<A>, keyOf: A -> Option<K>)
    ensures Image(a + b, keyOf) == Image(a, keyOf) + Image(b, keyOf)
  {
  }

  lemma MultisetRemoveAt<A>(s: seq<A>, j: nat)
    requires j < |s|
    ensures multiset(s[..j] + s[j + 1..]) == multiset(s) - multiset{s[j]}
  {
    assert s == s[..j] + [s[j]] + s[j + 1..];
  }

  /** Removing the entry at `j` removes exactly its key from the keys' multiset. */
  lemma ImageRemoveAt<A, K>(b: seq<A>, j: nat, keyOf: A -> Option<K>)
    requires j < |b|
    ensures multiset(Image(b, keyOf)) == multiset(Image(b[..j] + b[j + 1..], keyOf)) + multiset{keyOf(b[j])}
  {
    var front, back := b[..j], b[j + 1..];
    assert b == front + [b[j]] + back;
    ImageConcat(front, [b[j]], keyOf);
    ImageConcat(front + [b[j]], back, keyOf);
    ImageConcat(front, back, keyOf);
  }

  /** Entries that are a permutation of each other yield keys that are a permutation of each other. */
  lemma {:induction false} ImagePermutation<A, K>(a: seq<A>, b: seq<A>, keyOf: A -> Option<K>)
    requires multiset(a) == multiset(b)
    ensures multiset(Image(a, keyOf)) == multiset(Image(b, keyOf))
    decreases |a|
  {
    if a != [] {
      var n := |a| - 1;
      var restA := a[..n] + a[n + 1..];
      assert a[n] in multiset(b);
      var j :| 0 <= j < |b| && b[j] == a[n];
      var restB := b[..j] + b[j + 1..];
      MultisetRemoveAt(a, n);
      MultisetRemoveAt(b, j);
      ImagePermutation(restA, restB, keyOf);
      ImageRemoveAt(a, n, keyOf);
      ImageRemoveAt(b, j, keyOf);
    }
  }
}
