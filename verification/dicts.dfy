/**
 * Insertion-ordered dictionaries with unique keys.
 *
 * Both a PHP array and a plain JavaScript object behave this way for the
 * keys this project uses: assigning to a key that is already present
 * replaces its value and keeps its position, and a new key goes last.
 */
module Dicts {
  import opened Wrappers

  /** No element occurs twice. */
  ghost predicate Distinct<T>(s: seq<T>) {
    forall i, j :: 0 <= i < j < |s| ==> s[i] != s[j]
  }

  /** `keys` gives the order, `vals` the contents. */
  datatype Dict<K(==, !new), V> = Dict(keys: seq<K>, vals: map<K, V>) {

    /** Every key is listed once, every listed key has a value, and there
        are no other values (`Domain` spells that out). */
    ghost predicate Valid() {
      && Distinct(keys)
      && (forall i :: 0 <= i < |keys| ==> keys[i] in vals)
      && |vals| == |keys|
    }

    /** Exactly the listed keys have a value. */
    lemma Domain()
      requires Valid()
      ensures forall k :: k in vals <==> k in keys
    {
      var listed := set k | k in keys;
      DistinctCard(keys);
      forall k | k in listed ensures k in vals {
        var i :| 0 <= i < |keys| && keys[i] == k;
      }
      assert listed <= vals.Keys;
      assert |vals.Keys - listed| == |vals.Keys| - |listed| == 0;
      assert vals.Keys - listed == {};
      forall k | k in vals ensures k in keys {
        assert k !in vals.Keys - listed;
      }
    }

    /** Lookup: `None` stands for a missing key. */
    function Get(k: K): Option<V> {
      if k in vals then Some(vals[k]) else None
    }

    /** `d[k] = v`: the key now maps to `v`, every other key keeps its value,
        an existing key keeps its position and a new key is appended. */
    function Put(k: K, v: V): (r: Dict<K, V>)
      requires Valid()
      ensures r.Valid()
      ensures r.Get(k) == Some(v)
      ensures forall k' :: k' != k ==> r.Get(k') == Get(k')
      ensures k in vals ==> r.keys == keys
      ensures k !in vals ==> r.keys == keys + [k]
    {
      Dict(if k in vals then keys else keys + [k], vals[k := v])
    }

    /** After `Put(k, v)` the listed keys are the old ones and `k`. */
    lemma PutKeys(k: K, v: V)
      requires Valid()
      ensures forall x :: x in Put(k, v).keys <==> x == k || x in keys
    {
      Domain();
    }

    /** The values in key order (`Object.values`). */
    function Values(): (r: seq<V>)
      requires Valid()
      ensures |r| == |keys|
      ensures forall i :: 0 <= i < |keys| ==> r[i] == vals[keys[i]]
    {
      seq(|keys|, i requires 0 <= i < |keys| => vals[keys[i]])
    }
  }

  /** A list without repeats has as many distinct elements as entries. */
  lemma {:induction false} DistinctCard<T>(s: seq<T>)
    requires Distinct(s)
    ensures |set x | x in s| == |s|
  {
    if s != [] {
      var init := s[..|s| - 1];
      var last := s[|s| - 1];
      assert Distinct(init);
      DistinctCard(init);
      assert last !in init by {
        forall i | 0 <= i < |init| ensures init[i] != last {
          assert s[i] != s[|s| - 1];
        }
      }
      assert (set x | x in s) == (set x | x in init) + {last} by {
        assert s == init + [last];
      }
    }
  }

  /** The empty dictionary (`[]` in PHP, `{}` in JavaScript). */
  function Empty<K(==, !new), V>(): (d: Dict<K, V>)
    ensures d.Valid() && d.keys == []
    ensures forall k :: d.Get(k) == None
  {
    Dict([], map[])
  }
}
