/** A JavaScript `Map` filled by a sequence of `set(key, value)` calls, in program order. */
module Maps {

  /** The map that `new Map()` followed by `set(e.0, e.1)` for every entry `e`, in order, builds. */
  function FromEntries<K, V>(entries: seq<(K, V)>): (m: map<K, V>)
    ensures |entries| > 0 ==> entries[|entries| - 1].0 in m
    ensures |entries| > 0 ==> m[entries[|entries| - 1].0] == entries[|entries| - 1].1
  {
    if |entries| == 0 then map[]
    else
      var last := entries[|entries| - 1];
      FromEntries(entries[..|entries| - 1])[last.0 := last.1]
  }

  /** The keys of the built map are exactly the keys that were set. */
  lemma {:induction false} FromEntriesKeys<K, V>(entries: seq<(K, V)>)
    ensures FromEntries(entries).Keys == set e | e in entries :: e.0
  {
    if |entries| > 0 {
      var init := entries[..|entries| - 1];
      FromEntriesKeys(init);
      assert entries == init + [entries[|entries| - 1]];
    }
  }

  /** Keys are set at most once. */
  ghost predicate DistinctKeys<K, V>(entries: seq<(K, V)>)
  {
    forall i, j :: 0 <= i < j < |entries| ==> entries[i].0 != entries[j].0
  }

  /** When every key is set once, looking a key up gives the value it was set to. */
  lemma {:induction false} FromEntriesLookup<K, V>(entries: seq<(K, V)>, i: nat)
    requires DistinctKeys(entries)
    requires i < |entries|
    ensures entries[i].0 in FromEntries(entries)
    ensures FromEntries(entries)[entries[i].0] == entries[i].1
  {
    var n := |entries| - 1;
    if i < n {
      var init := entries[..n];
      assert DistinctKeys(init) by {
        forall a, b | 0 <= a < b < |init| ensures init[a].0 != init[b].0 {
          assert init[a] == entries[a] && init[b] == entries[b];
        }
      }
      FromEntriesLookup(init, i);
      assert init[i] == entries[i];
      assert entries[i].0 != entries[n].0;
    }
  }
}
